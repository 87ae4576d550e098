/** Pending additions over time, with every access of every call interleaved: how pending metadata
    comes and goes, and how it gets stuck. */
module GateStale {
  import opened Strings
  import opened Validate
  import opened Files
  import opened Edits
  import opened Transactions
  import opened Protocol
  import opened ProtocolBasic
  import opened ProtocolHashes
  import opened Quorum
  import opened QuorumRecords
  import opened Gate
  import opened GateRuns
  import opened GateSound
  import opened GateLanding
  import opened GateAlone

  // ---- how pending metadata comes and goes --------------------------------------------------------

  /** A preparation writes its metadata. It found nothing pending when it looked, which may be long ago. */
  predicate Places(s: GSys, a: GAction) {
    && a.Go? && !a.fail && a.c in s.calls && s.calls[a.c].pc.Preparing?
    && s.calls[a.c].pc.done >= |s.calls[a.c].pc.q.policy.operators|
  }

  predicate Clears(s: GSys, a: GAction) {
    a.Go? && a.c in s.calls && s.calls[a.c].pc.Clearing? && META_NAME !in a.left
  }

  /** Somebody deletes meta.json by hand. */
  predicate Loses(a: GAction) {
    a.Lose? && META_NAME !in a.left
  }

  /** No other step touches meta.json. */
  lemma {:induction false} MetaStep(h: Digests, s: GSys, a: GAction)
    ensures LoadMeta(GStep(h, s, a).dir)
         == if Places(s, a) then Ok(Some(MetaOfCall(s, a.c, s.calls[a.c].pc.q)))
            else if Clears(s, a) || Loses(a) then Ok(None)
            else LoadMeta(s.dir)
  {
    if a.Go? && a.c in s.calls {
      MetaGo(h, s, a.c, a.fail, a.torn, a.pid, a.left);
    }
  }

  lemma MetaGo(h: Digests, s: GSys, c: Cid, fail: bool, torn: bool, pid: Pid, left: set<string>)
    requires c in s.calls
    ensures var a := Go(c, fail, torn, pid, left);
      LoadMeta(GoCall(h, s, c, fail, torn, pid, left).dir)
        == if Places(s, a) then Ok(Some(MetaOfCall(s, c, s.calls[c].pc.q)))
           else if Clears(s, a) then Ok(None)
           else LoadMeta(s.dir)
  {
    var pc := s.calls[c].pc;
    if pc.Preparing? {
      assert GoCall(h, s, c, fail, torn, pid, left) == GoPreparing(h, s, c, pc.q, pc.done, fail, torn);
      MetaPreparing(h, s, c, pc.q, pc.done, fail, torn);
    } else if pc.Clearing? {
      assert GoCall(h, s, c, fail, torn, pid, left) == GoClearing(s, c, pc.cleaned, pc.t, left);
    } else if pc.SignOpened? {
      assert GoCall(h, s, c, fail, torn, pid, left) == GoSignOpened(h, s, c, pc, fail, torn);
      FileNames(h.thumb(pc.operator));
    }
  }

  lemma MetaPreparing(h: Digests, s: GSys, c: Cid, q: PrepareRequest, done: nat, fail: bool, torn: bool)
    requires c in s.calls
    ensures LoadMeta(GoPreparing(h, s, c, q, done, fail, torn).dir)
         == if !fail && done >= |q.policy.operators| then Ok(Some(MetaOfCall(s, c, q))) else LoadMeta(s.dir)
  {
    if done < |q.policy.operators| {
      FileNames(h.thumb(q.policy.operators[done].recipient));
    }
  }

  /** In every run: pending metadata goes away only by hand, by the clearing of an addition that had
      its quorum and has committed, or under a preparation that overlapped. */
  lemma {:induction false} PendingEnds(h: Digests, s: GSys, run: seq<GAction>, a: GAction, m: Meta)
    requires GStart(s) && FreshRun(h, s, run) && LoadMeta(GExec(h, s, run).dir) == Ok(Some(m))
    ensures var x := GExec(h, s, run);
      && (LoadMeta(GStep(h, x, a).dir) != Ok(Some(m)) <==>
            Loses(a) || Clears(x, a) || (Places(x, a) && MetaOfCall(x, a.c, x.calls[a.c].pc.q) != m))
      && (Clears(x, a) ==>
            var r, t := x.calls[a.c].request, x.calls[a.c].pc.t;
            t.Approved? && QuorumReached(h, x.acts, r, x.calls[a.c].pc.cleaned, t.m, t.ops, t.found))
  {
    var x := GExec(h, s, run);
    MetaStep(h, x, a);
    RunRecorded(h, s, run);
    if Clears(x, a) {
      assert CallOk(h, x.acts, x.calls[a.c]);
    }
  }

  // ---- pending hashes -----------------------------------------------------------------------------

  ghost predicate PreparingSettled(sys: Sys, call: Call) {
    call.pc.Preparing? ==> Settled(sys, call.pc.q.sha)
  }

  /** No commit still to come gives an entry the hash that is pending, or about to be. */
  ghost predicate PendingSettled(s: GSys) {
    && (forall m: Meta :: LoadMeta(s.dir) == Ok(Some(m)) ==> Settled(s.sys, m.sha))
    && forall c :: c in s.calls ==> PreparingSettled(s.sys, s.calls[c])
  }

  lemma SettledOnStore(s: GSys, a: Action)
    requires PendingSettled(s)
    ensures PendingSettled(s.(sys := Apply(s.sys, a)))
  {
    forall m: Meta | LoadMeta(s.dir) == Ok(Some(m))
      ensures Settled(Apply(s.sys, a), m.sha)
    {
      SettledStep(s.sys, a, m.sha);
    }
    forall c | c in s.calls
      ensures PreparingSettled(Apply(s.sys, a), s.calls[c])
    {
      assert PreparingSettled(s.sys, s.calls[c]);
      if s.calls[c].pc.Preparing? {
        SettledStep(s.sys, a, s.calls[c].pc.q.sha);
      }
    }
  }

  /** A call begins to prepare with the hash it has just found. */
  lemma PreparingAfter(h: Digests, s: GSys, c: Cid, fail: bool, torn: bool, pid: Pid, left: set<string>)
    requires c in s.calls && HashesOk(s.sys) && PreparingSettled(s.sys, s.calls[c])
    ensures PreparingSettled(s.sys, GoCall(h, s, c, fail, torn, pid, left).calls[c])
  {
    var pc, r := s.calls[c].pc, s.calls[c].request;
    if pc.NothingPending? {
      assert GoCall(h, s, c, fail, torn, pid, left) == GoNothing(s, c, pc.p, pc.cleaned, fail);
      if r.Adding? {
        assert EntrySettled(s.sys, r.app, r.env);
      }
    } else if pc.Preparing? {
      assert GoCall(h, s, c, fail, torn, pid, left) == GoPreparing(h, s, c, pc.q, pc.done, fail, torn);
    } else {
      NobodyPrepares(h, s, c, fail, torn, pid, left);
    }
  }

  lemma NobodyPrepares(h: Digests, s: GSys, c: Cid, fail: bool, torn: bool, pid: Pid, left: set<string>)
    requires c in s.calls && !s.calls[c].pc.NothingPending? && !s.calls[c].pc.Preparing?
    ensures !GoCall(h, s, c, fail, torn, pid, left).calls[c].pc.Preparing?
  {
    if s.calls[c].pc.Begun? {
      assert GoCall(h, s, c, fail, torn, pid, left) == To(s, c, AfterPolicy(s.calls[c].request, fail));
    }
  }

  lemma SettledOnGo(h: Digests, s: GSys, c: Cid, fail: bool, torn: bool, pid: Pid, left: set<string>)
    requires c in s.calls && HashesOk(s.sys) && PendingSettled(s)
    ensures PendingSettled(GoCall(h, s, c, fail, torn, pid, left).(sys := s.sys))
  {
    var t := GoCall(h, s, c, fail, torn, pid, left);
    MetaGo(h, s, c, fail, torn, pid, left);
    assert PreparingSettled(s.sys, s.calls[c]);
    PreparingAfter(h, s, c, fail, torn, pid, left);
    forall x | x in t.calls
      ensures PreparingSettled(s.sys, t.calls[x])
    {
      if x != c {
        assert t.calls[x] == s.calls[x];
        assert PreparingSettled(s.sys, s.calls[x]);
      }
    }
  }

  lemma SettledStays(h: Digests, s: GSys, a: GAction)
    requires HashesOk(s.sys) && PendingSettled(s)
    ensures PendingSettled(GStep(h, s, a))
  {
    match a
    case StoreStep(b) => SettledOnStore(s, b);
    case Go(c, fail, torn, pid, left) =>
      if c in s.calls {
        SettledOnGo(h, s, c, fail, torn, pid, left);
        SysOfGo(h, s, c, fail, torn, pid, left);
        var t := GoCall(h, s, c, fail, torn, pid, left);
        if t.sys != s.sys {
          SettledOnStore(t.(sys := s.sys), Spawn(pid, AddingJob(s.calls[c].request, s.calls[c].pc.cleaned)));
        }
      }
    case Begin(_, _) =>
    case Lose(_) => MetaStep(h, s, a);
  }

  /** Every pending hash is one the manifest can only leave. */
  lemma {:induction false} RunPendingSettled(h: Digests, s: GSys, run: seq<GAction>)
    requires GoodStart(s)
    ensures PendingSettled(GExec(h, s, run))
  {
    if run != [] {
      var n := |run| - 1;
      RunPendingSettled(h, s, run[..n]);
      RunSys(h, s, run[..n]);
      SettledStays(h, GExec(h, s, run[..n]), run[n]);
    }
  }

  // ---- how it gets stuck --------------------------------------------------------------------------

  /** A non-bootstrap addition under a policy file, valid or not. */
  predicate IsGated(r: Request) {
    r.Adding? && !r.bootstrap && !r.f.NoPolicy?
  }

  predicate Ended(pc: CallPc) {
    pc.Waiting? || pc.Granted? || pc.Signed? || pc.Refused?
  }

  /** The call found nothing pending, or has matched metadata or an entry from before, and is not
      done yet. */
  predicate InFlight(call: Call, m: Meta) {
    match call.pc
    case NothingPending(_, _) => true
    case Preparing(_, _) => true
    case EntryFound(p, cleaned, found, _) =>
      MetaMatches(m, VerifyRequest(call.request.app, call.request.env, cleaned, found.sha, p)).None?
    case MetaChecked(_, _, _, _, _) => true
    case Collecting(_, _, _, _, _, _, _, _) => true
    case Allowed(_, t) => t.Approved?
    case Applying(_, _, t) => t.Approved?
    case Clearing(_, _) => true
    case _ => false
  }

  /** A gated call that has not come past the pending metadata. */
  predicate Before(pc: CallPc) {
    pc.Begun? || pc.Gated? || pc.SomethingPending? || pc.EntryFound? || pc.Refused?
  }

  predicate Harmless(call: Call, m: Meta) {
    !InFlight(call, m) && (IsGated(call.request) ==> Before(call.pc) || Ended(call.pc))
  }

  lemma HarmlessNow(h: Digests, acts: Acts, call: Call, m: Meta)
    requires CallOk(h, acts, call) && !InFlight(call, m)
    ensures Harmless(call, m)
  {
  }

  ghost predicate Stuck(s: GSys, m: Meta) {
    && LoadMeta(s.dir) == Ok(Some(m)) && Moved(s.sys, m.app, m.env, m.sha)
    && forall c :: c in s.calls ==> Harmless(s.calls[c], m)
  }

  /** The refusals of one call. */
  lemma HarmlessGo(h: Digests, s: GSys, c: Cid, fail: bool, torn: bool, pid: Pid, left: set<string>, m: Meta)
    requires c in s.calls && Harmless(s.calls[c], m)
    requires LoadMeta(s.dir) == Ok(Some(m)) && ShaAt(s.sys.files, m.app, m.env) != m.sha
    ensures Harmless(GoCall(h, s, c, fail, torn, pid, left).calls[c], m)
  {
    var pc, r := s.calls[c].pc, s.calls[c].request;
    if pc.Gated? || pc.SomethingPending? || pc.EntryFound? {
      HarmlessLook(h, s, c, fail, torn, pid, left, m);
    } else if pc.Begun? {
      assert GoCall(h, s, c, fail, torn, pid, left) == To(s, c, AfterPolicy(r, fail));
    } else {
      HarmlessElsewhere(h, s, c, fail, torn, pid, left, m);
    }
  }

  lemma HarmlessLook(h: Digests, s: GSys, c: Cid, fail: bool, torn: bool, pid: Pid, left: set<string>, m: Meta)
    requires c in s.calls && Harmless(s.calls[c], m)
    requires s.calls[c].pc.Gated? || s.calls[c].pc.SomethingPending? || s.calls[c].pc.EntryFound?
    requires LoadMeta(s.dir) == Ok(Some(m)) && ShaAt(s.sys.files, m.app, m.env) != m.sha
    ensures Harmless(GoCall(h, s, c, fail, torn, pid, left).calls[c], m)
  {
    var pc := s.calls[c].pc;
    if pc.Gated? {
      assert GoCall(h, s, c, fail, torn, pid, left) == GoGated(s, c, pc.p, pc.cleaned, fail);
    } else if pc.SomethingPending? {
      assert GoCall(h, s, c, fail, torn, pid, left) == GoSomething(s, c, pc.p, pc.cleaned, fail);
    } else {
      assert GoCall(h, s, c, fail, torn, pid, left) == GoEntryFound(s, c, pc, fail);
    }
  }

  lemma HarmlessElsewhere(h: Digests, s: GSys, c: Cid, fail: bool, torn: bool, pid: Pid, left: set<string>, m: Meta)
    requires c in s.calls && Harmless(s.calls[c], m) && (!Before(s.calls[c].pc) || s.calls[c].pc.Refused?)
    ensures Harmless(GoCall(h, s, c, fail, torn, pid, left).calls[c], m)
  {
    var pc := s.calls[c].pc;
    if pc.Counting? {
      assert GoCall(h, s, c, fail, torn, pid, left) == GoCounting(s, c, pc.cleaned, fail);
    } else if pc.Allowed? {
      assert GoCall(h, s, c, fail, torn, pid, left) == GoAllowed(s, c, pc.cleaned, pc.t, fail, pid);
    } else if pc.Applying? {
      assert GoCall(h, s, c, fail, torn, pid, left) == GoApplying(s, c, pc.pid, pc.cleaned, pc.t);
    }
  }

  lemma StuckStep(h: Digests, s: GSys, a: GAction, m: Meta)
    requires Stuck(s, m) && Basic(s.sys) && !Loses(a)
    ensures Stuck(GStep(h, s, a), m)
  {
    MetaStep(h, s, a);
    if a.Go? && a.c in s.calls {
      assert Harmless(s.calls[a.c], m);
      HarmlessGo(h, s, a.c, a.fail, a.torn, a.pid, a.left, m);
    }
    StoreStepIs(h, s, a);
    if StoreActions(s, a) != [] {
      MovedStep(s.sys, StoreActions(s, a)[0], m.app, m.env, m.sha);
    }
    OtherCalls(h, s, a, m);
  }

  lemma OtherCalls(h: Digests, s: GSys, a: GAction, m: Meta)
    requires forall c :: c in s.calls ==> Harmless(s.calls[c], m)
    requires a.Go? && a.c in s.calls ==> Harmless(GStep(h, s, a).calls[a.c], m)
    ensures forall c :: c in GStep(h, s, a).calls ==> Harmless(GStep(h, s, a).calls[c], m)
  {
  }

  lemma {:induction false} RunStuck(h: Digests, s: GSys, run: seq<GAction>, more: seq<GAction>, m: Meta)
    requires GoodStart(s) && Stuck(GExec(h, s, run), m) && forall i :: 0 <= i < |more| ==> !Loses(more[i])
    ensures Stuck(GExec(h, s, run + more), m)
  {
    if more == [] {
      assert run + more == run;
    } else {
      var n := |more| - 1;
      RunStuck(h, s, run, more[..n], m);
      GExecPrev(h, s, run, more);
      RunSys(h, s, run + more[..n]);
      StuckStep(h, GExec(h, s, run + more[..n]), more[n], m);
    }
  }

  /** A gated call in such a state does nothing, or it has ended. */
  lemma StuckBlocks(h: Digests, s: GSys, a: GAction, m: Meta)
    requires Stuck(s, m) && a.Go? && a.c in s.calls && IsGated(s.calls[a.c].request)
    ensures GStep(h, s, a).sys == s.sys && GStep(h, s, a).dir == s.dir
    ensures Before(s.calls[a.c].pc) || Ended(s.calls[a.c].pc)
    ensures Ended(s.calls[a.c].pc) ==> GStep(h, s, a) == s
    ensures !Ended(s.calls[a.c].pc) ==> Before(GStep(h, s, a).calls[a.c].pc)
  {
    var c := a.c;
    assert Harmless(s.calls[c], m);
    HarmlessGo(h, s, c, a.fail, a.torn, a.pid, a.left, m);
    if !Ended(s.calls[c].pc) {
      BeforeGo(h, s, c, a.fail, a.torn, a.pid, a.left, m);
    }
  }

  lemma BeforeGo(h: Digests, s: GSys, c: Cid, fail: bool, torn: bool, pid: Pid, left: set<string>, m: Meta)
    requires c in s.calls && Harmless(s.calls[c], m) && IsGated(s.calls[c].request) && Before(s.calls[c].pc)
    requires LoadMeta(s.dir) == Ok(Some(m))
    ensures var pc := GoCall(h, s, c, fail, torn, pid, left).calls[c].pc; !pc.Waiting? && !pc.Granted? && !pc.Signed?
  {
    if s.calls[c].pc.Begun? {
      assert GoCall(h, s, c, fail, torn, pid, left) == To(s, c, AfterPolicy(s.calls[c].request, fail));
    }
  }

  ghost predicate NothingInFlight(s: GSys, m: Meta) {
    forall c :: c in s.calls ==> !InFlight(s.calls[c], m)
  }

  lemma StuckNow(h: Digests, s: GSys, run: seq<GAction>, m: Meta)
    requires GoodStart(s) && FreshRun(h, s, run) && LoadMeta(GExec(h, s, run).dir) == Ok(Some(m))
    requires ShaAt(GExec(h, s, run).sys.files, m.app, m.env) != m.sha && NothingInFlight(GExec(h, s, run), m)
    ensures Stuck(GExec(h, s, run), m)
  {
    var x := GExec(h, s, run);
    RunPendingSettled(h, s, run);
    RunRecorded(h, s, run);
    forall c | c in x.calls
      ensures Harmless(x.calls[c], m)
    {
      assert CallOk(h, x.acts, x.calls[c]);
      HarmlessNow(h, x.acts, x.calls[c], m);
    }
  }

  /** From any start with files as the store keeps them, in any reachable state: once the manifest
      has another hash than the pending metadata, however it moved, and no call is still on its way
      with what it found before, the pending addition can never be completed. In every continuation
      in which nobody deletes meta.json by hand it stays pending, the hash never comes back, and
      every non-bootstrap addition under a policy, for any namespace and recipient, changes neither
      the store nor the pending directory at any step and ends, if it ends, refused. */
  lemma {:induction false} StalePending(h: Digests, s: GSys, run: seq<GAction>, more: seq<GAction>, m: Meta, a: GAction)
    requires GoodStart(s) && FreshRun(h, s, run) && LoadMeta(GExec(h, s, run).dir) == Ok(Some(m))
    requires ShaAt(GExec(h, s, run).sys.files, m.app, m.env) != m.sha && NothingInFlight(GExec(h, s, run), m)
    requires forall i :: 0 <= i < |more| ==> !Loses(more[i])
    ensures var y := GExec(h, s, run + more);
      && LoadMeta(y.dir) == Ok(Some(m)) && ShaAt(y.sys.files, m.app, m.env) != m.sha
      && (a.Go? && a.c in y.calls && IsGated(y.calls[a.c].request) && !Ended(y.calls[a.c].pc) ==>
            var z := GStep(h, y, a);
            z.sys == y.sys && z.dir == y.dir && (Ended(z.calls[a.c].pc) ==> z.calls[a.c].pc.Refused?))
  {
    var y := GExec(h, s, run + more);
    StuckNow(h, s, run, m);
    RunStuck(h, s, run, more, m);
    if a.Go? && a.c in y.calls && IsGated(y.calls[a.c].request) {
      StuckBlocks(h, y, a, m);
    }
  }

  // ---- overlapping preparations -------------------------------------------------------------------

  /** Two calls open, then the first one finishes. */
  function FirstDone(s: GSys, c: Cid, r: Request, d: Cid, r': Request): seq<GAction>
    requires CanPrepare(s, r)
  {
    Alone(c, r, 3) + Alone(d, r', 3) + Gos(c, |Asked(s, r).policy.operators| + 1)
  }

  lemma FinishFirst(h: Digests, s: GSys, y: GSys, c: Cid, r: Request, q: PrepareRequest, d: Cid, other: Call)
    requires y.sys == s.sys && c != d && r.Adding? && PrepareCheck(q).None?
    requires y.calls == s.calls[c := Call(r, Preparing(q, 0))][d := other]
    ensures var x := GExec(h, y, Gos(c, |q.policy.operators| + 1));
      && LoadMeta(x.dir) == Ok(Some(MetaOf(q, r.nonce))) && x.sys == s.sys
      && x.calls == s.calls[c := Call(r, Waiting)][d := other]
  {
    PreparationReplaces(h, y, c, r, q);
  }

  lemma {:induction false} FirstPending(h: Digests, s: GSys, c: Cid, r: Request, d: Cid, r': Request)
    requires LoadMeta(s.dir) == Ok(None) && s.sys.lock.exclusive.None?
    requires c !in s.calls && d !in s.calls && c != d && CanPrepare(s, r) && CanPrepare(s, r')
    ensures var x := GExec(h, s, FirstDone(s, c, r, d, r'));
      && LoadMeta(x.dir) == Ok(Some(MetaOf(Asked(s, r), r.nonce))) && x.sys == s.sys
      && x.calls == s.calls[c := Call(r, Waiting)][d := Call(r', Preparing(Asked(s, r'), 0))]
  {
    Opens(h, s, c, r);
    var x := GExec(h, s, Alone(c, r, 3));
    Opens(h, x, d, r');
    GExecJoin(h, s, Alone(c, r, 3), Alone(d, r', 3));
    var y := GExec(h, x, Alone(d, r', 3));
    assert y.calls == s.calls[c := Call(r, Preparing(Asked(s, r), 0))][d := Call(r', Preparing(Asked(s, r'), 0))];
    FinishFirst(h, s, y, c, r, Asked(s, r), d, Call(r', Preparing(Asked(s, r'), 0)));
    GExecJoin(h, s, Alone(c, r, 3) + Alone(d, r', 3), Gos(c, |Asked(s, r).policy.operators| + 1));
  }

  /** Nothing serialises preparations: from every state with nothing pending, two calls can both
      find nothing pending, both prepare and both report that they await signatures. What the first
      one prepared is gone, and only the second is pending. */
  lemma {:induction false} OverlapReplaces(h: Digests, s: GSys, c: Cid, r: Request, d: Cid, r': Request)
    requires LoadMeta(s.dir) == Ok(None) && s.sys.lock.exclusive.None?
    requires c !in s.calls && d !in s.calls && c != d && CanPrepare(s, r) && CanPrepare(s, r') && r.nonce != r'.nonce
    ensures var first := FirstDone(s, c, r, d, r');
      var x, y := GExec(h, s, first), GExec(h, s, first + Gos(d, |Asked(s, r').policy.operators| + 1));
      && LoadMeta(x.dir) == Ok(Some(MetaOf(Asked(s, r), r.nonce)))
      && LoadMeta(y.dir) == Ok(Some(MetaOf(Asked(s, r'), r'.nonce)))
      && LoadMeta(x.dir) != LoadMeta(y.dir) && y.sys == s.sys
      && y.calls == s.calls[c := Call(r, Waiting)][d := Call(r', Waiting)]
  {
    var first := FirstDone(s, c, r, d, r');
    FirstPending(h, s, c, r, d, r');
    PreparationReplaces(h, GExec(h, s, first), d, r', Asked(s, r'));
    GExecJoin(h, s, first, Gos(d, |Asked(s, r').policy.operators| + 1));
  }
}
