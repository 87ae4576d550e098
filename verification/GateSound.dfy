/** In every run of the gate, with every access of every call interleaved: a verification succeeds
    only with the quorum's signatures, and a gated addition starts only behind one. */
module GateSound {
  import opened Strings
  import opened Validate
  import opened Files
  import opened Transactions
  import opened Protocol
  import opened Quorum
  import opened QuorumLaws
  import opened QuorumRecords
  import opened Gate
  import opened GateRuns

  // ---- what each call knows -----------------------------------------------------------------------

  /** The call is a non-bootstrap addition under the policy `p`. */
  predicate UnderPolicy(r: Request, p: Policy, cleaned: string) {
    r.Adding? && !r.bootstrap && CleanRecipient(r.recipient) == Some(cleaned) && LoadPolicy(r.f) == Ok(Some(p))
  }

  /** The metadata is for this addition, for the entry found and for the policy's M. */
  predicate MetaFits(r: Request, p: Policy, cleaned: string, found: EnvMeta, m: Meta)
    requires r.Adding?
  {
    m.app == r.app && m.env == r.env && m.newRecipient == cleaned && m.sha == found.sha && m.m == p.m
  }

  /** At least M distinct operators of the prepared snapshot have each decrypted their own challenge
      and signed exactly `m`, and `m` is for this addition and the entry found. */
  ghost predicate QuorumReached(h: Digests, acts: Acts, r: Request, cleaned: string, m: Meta, ops: seq<Operator>,
                                found: EnvMeta)
  {
    && r.Adding? && LoadPolicy(r.f).Ok? && LoadPolicy(r.f).value.Some?
    && var p := LoadPolicy(r.f).value.value;
       && UnderPolicy(r, p, cleaned) && MetaFits(r, p, cleaned, found, m)
       && MetaKnown(acts, m) && Vouched(h, acts, m, ops) && |ops| >= p.m
  }

  ghost predicate TicketOk(h: Digests, acts: Acts, r: Request, cleaned: string, t: Ticket) {
    && r.Adding? && CleanRecipient(r.recipient) == Some(cleaned)
    && match t
       case Ungated => LoadPolicy(r.f) == Ok(None)
       case Counted(found, _) => r.bootstrap && |found.recipients| < 2
       case Approved(m, ops, found, _) => QuorumReached(h, acts, r, cleaned, m, ops, found)
  }

  ghost predicate CallOk(h: Digests, acts: Acts, call: Call) {
    var r := call.request;
    match call.pc
    case Counting(cleaned) => r.Adding? && r.bootstrap && CleanRecipient(r.recipient) == Some(cleaned)
    case Gated(p, cleaned) => UnderPolicy(r, p, cleaned)
    case NothingPending(p, cleaned) => UnderPolicy(r, p, cleaned)
    case Preparing(q, done) =>
      r.Adding? && done <= |q.policy.operators| && Preparation(q, r.nonce) in acts.prepared
    case SomethingPending(p, cleaned) => UnderPolicy(r, p, cleaned)
    case EntryFound(p, cleaned, _, _) => UnderPolicy(r, p, cleaned)
    case MetaChecked(p, cleaned, found, _, m) =>
      UnderPolicy(r, p, cleaned) && MetaFits(r, p, cleaned, found, m) && MetaKnown(acts, m)
    case Collecting(p, cleaned, found, _, m, names, done, out) =>
      && UnderPolicy(r, p, cleaned) && MetaFits(r, p, cleaned, found, m) && MetaKnown(acts, m)
      && done <= |names| && Vouched(h, acts, m, out)
    case Allowed(cleaned, t) => TicketOk(h, acts, r, cleaned, t)
    case Applying(_, cleaned, t) => TicketOk(h, acts, r, cleaned, t)
    case Clearing(cleaned, t) => t.Approved? && TicketOk(h, acts, r, cleaned, t)
    case Granted(cleaned, t) => TicketOk(h, acts, r, cleaned, t)
    case SignGated(_, _) => r.Signing?
    case SignLoaded(_, m) => r.Signing? && MetaKnown(acts, m)
    case SignOpened(operator, m, plain) =>
      r.Signing? && Accepted(h, plain, m) && SignerOk(h, acts, Signature(m, operator, r.who))
    case _ => true
  }

  ghost predicate CallsOk(h: Digests, acts: Acts, calls: map<Cid, Call>) {
    forall c :: c in calls ==> CallOk(h, acts, calls[c])
  }

  ghost predicate Recorded(h: Digests, s: GSys) {
    ActsOk(h, s.acts) && FilesOk(h, s.acts, s.dir) && CallsOk(h, s.acts, s.calls)
  }

  // ---- more records -------------------------------------------------------------------------------

  lemma TicketGrows(h: Digests, a: Acts, b: Acts, r: Request, cleaned: string, t: Ticket)
    requires TicketOk(h, a, r, cleaned, t) && Within(a, b)
    ensures TicketOk(h, b, r, cleaned, t)
  {
    if t.Approved? {
      MetaKnownGrows(a, b, t.m);
      VouchedGrows(h, a, b, t.m, t.ops);
    }
  }

  lemma CallGrows(h: Digests, a: Acts, b: Acts, call: Call)
    requires CallOk(h, a, call) && Within(a, b)
    ensures CallOk(h, b, call)
  {
    match call.pc
    case MetaChecked(_, _, _, _, m) => MetaKnownGrows(a, b, m);
    case Collecting(_, _, _, _, m, _, _, out) =>
      MetaKnownGrows(a, b, m);
      VouchedGrows(h, a, b, m, out);
    case Allowed(cleaned, t) => TicketGrows(h, a, b, call.request, cleaned, t);
    case Applying(_, cleaned, t) => TicketGrows(h, a, b, call.request, cleaned, t);
    case Clearing(cleaned, t) => TicketGrows(h, a, b, call.request, cleaned, t);
    case Granted(cleaned, t) => TicketGrows(h, a, b, call.request, cleaned, t);
    case SignLoaded(_, m) => MetaKnownGrows(a, b, m);
    case SignOpened(operator, m, _) => SignerGrows(h, a, b, Signature(m, operator, call.request.who));
    case _ =>
  }

  lemma CallsGrow(h: Digests, s: GSys, t: GSys, c: Cid)
    requires CallsOk(h, s.acts, s.calls) && Within(s.acts, t.acts) && OnlyCall(s, t, c)
    requires CallOk(h, t.acts, t.calls[c])
    ensures CallsOk(h, t.acts, t.calls)
  {
    forall x | x in t.calls
      ensures CallOk(h, t.acts, t.calls[x])
    {
      if x != c {
        assert t.calls[x] == s.calls[x];
        CallGrows(h, s.acts, t.acts, s.calls[x]);
      }
    }
  }

  // ---- the steps that write or record -------------------------------------------------------------

  lemma NothingStep(h: Digests, s: GSys, c: Cid, fail: bool)
    requires Recorded(h, s) && c in s.calls && s.calls[c].pc.NothingPending?
    requires IsNonce(s.calls[c].request.nonce)
    requires forall e :: e in s.acts.prepared ==> e.nonce != s.calls[c].request.nonce
    ensures var pc := s.calls[c].pc; Recorded(h, GoNothing(s, c, pc.p, pc.cleaned, fail))
  {
    var pc, r := s.calls[c].pc, s.calls[c].request;
    var t := GoNothing(s, c, pc.p, pc.cleaned, fail);
    assert CallOk(h, s.acts, s.calls[c]);
    if t.calls[c].pc.Preparing? {
      PreparationRecorded(h, s.acts, Preparation(t.calls[c].pc.q, r.nonce));
      FilesGrow(h, s.acts, t.acts, s.dir);
    }
    CallsGrow(h, s, t, c);
  }

  lemma PreparingStep(h: Digests, s: GSys, c: Cid, fail: bool, torn: bool)
    requires Recorded(h, s) && c in s.calls && s.calls[c].pc.Preparing?
    ensures var pc := s.calls[c].pc; Recorded(h, GoPreparing(h, s, c, pc.q, pc.done, fail, torn))
  {
    var pc, r := s.calls[c].pc, s.calls[c].request;
    var t := GoPreparing(h, s, c, pc.q, pc.done, fail, torn);
    assert CallOk(h, s.acts, s.calls[c]);
    var e := Preparation(pc.q, r.nonce);
    if pc.done < |pc.q.policy.operators| {
      var op := pc.q.policy.operators[pc.done];
      TornFile(h, s.acts, s.dir, ChallengeName(h.thumb(op.recipient)), torn);
      ChallengeFile(h, s.acts, s.dir, e, op);
    } else {
      assert MetaOfCall(s, c, pc.q) == MetaFor(e);
      MetaFile(h, s.acts, s.dir, MetaFor(e));
    }
    CallsGrow(h, s, t, c);
  }

  lemma CollectingStep(h: Digests, s: GSys, c: Cid, fail: bool)
    requires Recorded(h, s) && c in s.calls && s.calls[c].pc.Collecting?
    ensures Recorded(h, GoCollecting(h, s, c, s.calls[c].pc, fail))
  {
    var pc := s.calls[c].pc;
    assert CallOk(h, s.acts, s.calls[c]);
    if pc.done < |pc.names| {
      CollectOneVouched(h, s.acts, s.dir, s.calls[c].request.who, pc.m, pc.out, pc.names[pc.done]);
    }
    CallsGrow(h, s, GoCollecting(h, s, c, pc, fail), c);
  }

  lemma EntryFoundStep(h: Digests, s: GSys, c: Cid, fail: bool)
    requires Recorded(h, s) && c in s.calls && s.calls[c].pc.EntryFound?
    ensures Recorded(h, GoEntryFound(s, c, s.calls[c].pc, fail))
  {
    assert CallOk(h, s.acts, s.calls[c]);
    var meta := LoadMeta(s.dir);
    if meta.Ok? && meta.value.Some? {
      LoadedMetaKnown(h, s.acts, s.dir, meta.value.value);
    }
    CallsGrow(h, s, GoEntryFound(s, c, s.calls[c].pc, fail), c);
  }

  lemma SignGatedStep(h: Digests, s: GSys, c: Cid, fail: bool)
    requires Recorded(h, s) && c in s.calls && s.calls[c].pc.SignGated?
    ensures var pc := s.calls[c].pc; Recorded(h, GoSignGated(h, s, c, pc.cleaned, pc.operator, fail))
  {
    var pc := s.calls[c].pc;
    assert CallOk(h, s.acts, s.calls[c]);
    var meta := LoadMeta(s.dir);
    if meta.Ok? && meta.value.Some? {
      LoadedMetaKnown(h, s.acts, s.dir, meta.value.value);
    }
    CallsGrow(h, s, GoSignGated(h, s, c, pc.cleaned, pc.operator, fail), c);
  }

  lemma SignLoadedStep(h: Digests, s: GSys, c: Cid, fail: bool)
    requires Recorded(h, s) && c in s.calls && s.calls[c].pc.SignLoaded?
    ensures var pc := s.calls[c].pc; Recorded(h, GoSignLoaded(h, s, c, pc.operator, pc.m, fail))
  {
    var pc := s.calls[c].pc;
    assert CallOk(h, s.acts, s.calls[c]);
    SignLoadedCall(h, s, c, fail);
    CallsGrow(h, s, GoSignLoaded(h, s, c, pc.operator, pc.m, fail), c);
  }

  lemma SignLoadedCall(h: Digests, s: GSys, c: Cid, fail: bool)
    requires ActsOk(h, s.acts) && FilesOk(h, s.acts, s.dir) && c in s.calls && s.calls[c].pc.SignLoaded?
    requires CallOk(h, s.acts, s.calls[c])
    ensures var t := GoSignLoaded(h, s, c, s.calls[c].pc.operator, s.calls[c].pc.m, fail);
      t.acts == s.acts && t.dir == s.dir && CallOk(h, t.acts, t.calls[c])
  {
    var pc, who := s.calls[c].pc, s.calls[c].request.who;
    var plain := Quorum.Decrypted(s.dir, ChallengeName(h.thumb(pc.operator)), who);
    if plain.Some? && Accepted(h, plain.value, pc.m) {
      DecryptedSigner(h, s.acts, s.dir, pc.operator, who, pc.m);
    }
  }

  lemma SignOpenedStep(h: Digests, s: GSys, c: Cid, fail: bool, torn: bool)
    requires Recorded(h, s) && c in s.calls && s.calls[c].pc.SignOpened?
    ensures Recorded(h, GoSignOpened(h, s, c, s.calls[c].pc, fail, torn))
  {
    var pc := s.calls[c].pc;
    var g := Signature(pc.m, pc.operator, s.calls[c].request.who);
    var t := GoSignOpened(h, s, c, pc, fail, torn);
    assert CallOk(h, s.acts, s.calls[c]);
    if fail {
      TornFile(h, s.acts, s.dir, SigName(h.thumb(pc.operator)), torn);
    } else {
      SignatureRecorded(h, s.acts, g);
      FilesGrow(h, s.acts, t.acts, s.dir);
      SignatureFile(h, t.acts, s.dir, g, pc.plain);
    }
    CallsGrow(h, s, t, c);
  }

  /** The steps that neither write to the directory nor record anything, and learn nothing from it. */
  lemma PlainStep(h: Digests, s: GSys, c: Cid, fail: bool, torn: bool, pid: Pid, left: set<string>)
    requires Recorded(h, s) && c in s.calls
    requires var pc := s.calls[c].pc;
      pc.Begun? || pc.Counting? || pc.Gated? || pc.SomethingPending? || pc.MetaChecked? || pc.Allowed? || pc.Applying?
    ensures Recorded(h, GoCall(h, s, c, fail, torn, pid, left))
  {
    var t := GoCall(h, s, c, fail, torn, pid, left);
    assert CallOk(h, s.acts, s.calls[c]);
    PlainCall(h, s, c, fail, torn, pid, left);
    CallsGrow(h, s, t, c);
  }

  lemma PlainCall(h: Digests, s: GSys, c: Cid, fail: bool, torn: bool, pid: Pid, left: set<string>)
    requires c in s.calls && CallOk(h, s.acts, s.calls[c])
    requires var pc := s.calls[c].pc;
      pc.Begun? || pc.Counting? || pc.Gated? || pc.SomethingPending? || pc.MetaChecked? || pc.Allowed? || pc.Applying?
    ensures var t := GoCall(h, s, c, fail, torn, pid, left);
      t.acts == s.acts && t.dir == s.dir && CallOk(h, t.acts, t.calls[c])
  {
    var pc := s.calls[c].pc;
    if pc.Begun? {
      BegunCall(h, s, c, fail);
      assert GoCall(h, s, c, fail, torn, pid, left) == To(s, c, AfterPolicy(s.calls[c].request, fail));
    } else if pc.Allowed? {
      assert GoCall(h, s, c, fail, torn, pid, left) == GoAllowed(s, c, pc.cleaned, pc.t, fail, pid);
    } else if pc.Applying? {
      assert GoCall(h, s, c, fail, torn, pid, left) == GoApplying(s, c, pc.pid, pc.cleaned, pc.t);
    } else {
      LookCall(h, s, c, fail, torn, pid, left);
    }
  }

  lemma LookCall(h: Digests, s: GSys, c: Cid, fail: bool, torn: bool, pid: Pid, left: set<string>)
    requires c in s.calls && CallOk(h, s.acts, s.calls[c])
    requires var pc := s.calls[c].pc; pc.Counting? || pc.Gated? || pc.SomethingPending? || pc.MetaChecked?
    ensures var t := GoCall(h, s, c, fail, torn, pid, left);
      t.acts == s.acts && t.dir == s.dir && CallOk(h, t.acts, t.calls[c])
  {
    var pc := s.calls[c].pc;
    if pc.Counting? {
      assert GoCall(h, s, c, fail, torn, pid, left) == GoCounting(s, c, pc.cleaned, fail);
    } else if pc.Gated? {
      assert GoCall(h, s, c, fail, torn, pid, left) == GoGated(s, c, pc.p, pc.cleaned, fail);
    } else if pc.SomethingPending? {
      assert GoCall(h, s, c, fail, torn, pid, left) == GoSomething(s, c, pc.p, pc.cleaned, fail);
    } else {
      EmptyVouched(h, s.acts, pc.m);
      assert GoCall(h, s, c, fail, torn, pid, left) == GoMetaChecked(s, c, pc, fail);
    }
  }

  lemma EmptyVouched(h: Digests, acts: Acts, m: Meta)
    ensures Vouched(h, acts, m, [])
  {
  }

  lemma BegunCall(h: Digests, s: GSys, c: Cid, fail: bool)
    requires c in s.calls
    ensures CallOk(h, s.acts, Call(s.calls[c].request, AfterPolicy(s.calls[c].request, fail)))
  {
  }

  lemma ClearingStep(h: Digests, s: GSys, c: Cid, left: set<string>)
    requires Recorded(h, s) && c in s.calls && s.calls[c].pc.Clearing?
    ensures var pc := s.calls[c].pc; Recorded(h, GoClearing(s, c, pc.cleaned, pc.t, left))
  {
    var pc := s.calls[c].pc;
    assert CallOk(h, s.acts, s.calls[c]);
    ClearedFiles(h, s.acts, s.dir, left);
    CallsGrow(h, s, GoClearing(s, c, pc.cleaned, pc.t, left), c);
  }

  /** Every step keeps every pending file, every record and what every call knows in order. */
  lemma {:induction false} RecordedStep(h: Digests, s: GSys, a: GAction)
    requires Recorded(h, s) && FreshNonce(s, a)
    ensures Recorded(h, GStep(h, s, a))
  {
    match a
    case Lose(left) => ClearedFiles(h, s.acts, s.dir, left);
    case Go(c, fail, torn, pid, left) =>
      if c in s.calls {
        RecordedGo(h, s, c, fail, torn, pid, left);
      }
    case _ =>
  }

  lemma RecordedGo(h: Digests, s: GSys, c: Cid, fail: bool, torn: bool, pid: Pid, left: set<string>)
    requires Recorded(h, s) && c in s.calls && FreshNonce(s, Go(c, fail, torn, pid, left))
    ensures Recorded(h, GoCall(h, s, c, fail, torn, pid, left))
  {
    assert CallOk(h, s.acts, s.calls[c]);
    match s.calls[c].pc
    case NothingPending(_, _) => NothingStep(h, s, c, fail);
    case Preparing(_, _) => PreparingStep(h, s, c, fail, torn);
    case EntryFound(_, _, _, _) => EntryFoundStep(h, s, c, fail);
    case Collecting(_, _, _, _, _, _, _, _) => CollectingStep(h, s, c, fail);
    case Clearing(_, _) => ClearingStep(h, s, c, left);
    case SignGated(_, _) => SignGatedStep(h, s, c, fail);
    case SignLoaded(_, _) => SignLoadedStep(h, s, c, fail);
    case SignOpened(_, _, _) => SignOpenedStep(h, s, c, fail, torn);
    case Waiting =>
    case Granted(_, _) =>
    case Signed =>
    case Refused =>
    case _ => PlainStep(h, s, c, fail, torn, pid, left);
  }

  lemma {:induction false} RunRecorded(h: Digests, s: GSys, run: seq<GAction>)
    requires GStart(s) && FreshRun(h, s, run)
    ensures Recorded(h, GExec(h, s, run))
  {
    if run != [] {
      var n := |run| - 1;
      assert forall i :: 0 <= i < n ==> run[..n][..i] == run[..i];
      RunRecorded(h, s, run[..n]);
      assert FreshNonce(GExec(h, s, run[..n]), run[n]);
      RecordedStep(h, GExec(h, s, run[..n]), run[n]);
    }
  }

  // ---- the theorems -------------------------------------------------------------------------------

  /** The ticket of a call whose checks have succeeded. */
  function TicketOf(pc: CallPc): Option<Ticket> {
    match pc
    case Allowed(_, t) => Some(t)
    case Applying(_, _, t) => Some(t)
    case Clearing(_, t) => Some(t)
    case Granted(_, t) => Some(t)
    case _ => None
  }

  /** If signature files come only from SignAdd and nonces do not repeat, then whenever a
      verification has succeeded, at any moment of any run, at least M distinct operators of the
      prepared snapshot have each decrypted their own challenge and signed exactly the metadata it
      checked; and that metadata is of one preparation, for this recipient and namespace and for
      the hash of the entry the call had found. Files left over from another preparation, whole or
      torn, never count, even when preparations and verifications overlap. */
  lemma {:induction false} QuorumSound(h: Digests, s: GSys, run: seq<GAction>, c: Cid)
    requires GStart(s) && FreshRun(h, s, run)
    requires var x := GExec(h, s, run);
      c in x.calls && TicketOf(x.calls[c].pc).Some? && TicketOf(x.calls[c].pc).value.Approved?
    ensures var x := GExec(h, s, run);
      var t := TicketOf(x.calls[c].pc).value;
      QuorumReached(h, x.acts, x.calls[c].request, x.calls[c].pc.cleaned, t.m, t.ops, t.found)
  {
    RunRecorded(h, s, run);
    var x := GExec(h, s, run);
    assert CallOk(h, x.acts, x.calls[c]);
  }

  /** Under a policy a non-bootstrap addition changes the store in one way only: it starts the
      ordinary recipient operation for its own namespace and cleaned recipient, and only with that
      quorum behind it. */
  lemma {:induction false} GateNeedsQuorum(h: Digests, s: GSys, run: seq<GAction>, a: GAction)
    requires GStart(s) && FreshRun(h, s, run) && a.Go? && a.c in GExec(h, s, run).calls
    requires var r := GExec(h, s, run).calls[a.c].request; r.Adding? && r.f.Given? && !r.bootstrap
    requires GStep(h, GExec(h, s, run), a).sys != GExec(h, s, run).sys
    ensures var x := GExec(h, s, run);
      var r, pc := x.calls[a.c].request, x.calls[a.c].pc;
      && pc.Allowed? && pc.t.Approved?
      && QuorumReached(h, x.acts, r, pc.cleaned, pc.t.m, pc.t.ops, pc.t.found)
      && GStep(h, x, a).sys == Apply(x.sys, Spawn(a.pid, AddingJob(r, pc.cleaned)))
  {
    RunRecorded(h, s, run);
    var x := GExec(h, s, run);
    assert CallOk(h, x.acts, x.calls[a.c]);
  }
}
