/** A call of the gate that runs alone in the step machine: it comes to the decisions that the same
    call makes in `Gate`. */
module GateAlone {
  import opened Strings
  import opened Sorting
  import opened Validate
  import opened Files
  import opened Edits
  import opened Transactions
  import opened Protocol
  import opened ProtocolSolo
  import opened Quorum
  import opened QuorumLaws
  import opened Gate
  import opened GateRuns
  import opened GateSound

  function Going(c: Cid): GAction {
    Go(c, false, false, 0, {})
  }

  /** The next `n` steps of a call, none of which fails. */
  function Gos(c: Cid, n: nat): seq<GAction> {
    if n == 0 then [] else Gos(c, n - 1) + [Going(c)]
  }

  /** A new call and its first `n` steps. */
  function Alone(c: Cid, r: Request, n: nat): seq<GAction> {
    if n == 0 then [Begin(c, r)] else Alone(c, r, n - 1) + [Going(c)]
  }

  /** Nothing but one call has moved, and the pending directory perhaps. */
  ghost predicate OnlyNow(s: GSys, x: GSys, c: Cid, r: Request, pc: CallPc) {
    x.sys == s.sys && x.calls == s.calls[c := Call(r, pc)]
  }

  ghost predicate Here(s: GSys, x: GSys, c: Cid, r: Request, pc: CallPc) {
    OnlyNow(s, x, c, r, pc) && x.dir == s.dir
  }

  lemma AloneNext(h: Digests, s: GSys, c: Cid, r: Request, n: nat)
    ensures GExec(h, s, Alone(c, r, n + 1)) == GStep(h, GExec(h, s, Alone(c, r, n)), Going(c))
  {
    GExecSnoc(h, s, Alone(c, r, n), Going(c));
  }

  lemma AloneBegins(h: Digests, s: GSys, c: Cid, r: Request)
    requires c !in s.calls
    ensures Here(s, GExec(h, s, Alone(c, r, 0)), c, r, Begun)
  {
    GExecSnoc(h, s, [], Begin(c, r));
    assert [] + [Begin(c, r)] == [Begin(c, r)];
  }

  // ---- runs of the store inside a run of the gate -------------------------------------------------

  function Lift(run: seq<Action>): seq<GAction> {
    if run == [] then [] else Lift(run[..|run| - 1]) + [StoreStep(run[|run| - 1])]
  }

  lemma {:induction false} LiftExec(h: Digests, s: GSys, run: seq<Action>)
    ensures GExec(h, s, Lift(run)) == s.(sys := Exec(s.sys, run))
  {
    if run != [] {
      var n := |run| - 1;
      LiftExec(h, s, run[..n]);
      GExecSnoc(h, s, Lift(run[..n]), StoreStep(run[n]));
    }
  }

  lemma {:induction false} ExecJoin(s: Sys, run: seq<Action>, more: seq<Action>)
    ensures Exec(s, run + more) == Exec(Exec(s, run), more)
  {
    if more == [] {
      assert run + more == run;
    } else {
      var n := |more| - 1;
      assert (run + more)[..|run + more| - 1] == run + more[..n];
      ExecJoin(s, run, more[..n]);
    }
  }

  function Steps(p: Pid): seq<Action> {
    SoloWrites(SoloReads([], p), p)
  }

  lemma SoloIs(s: Sys, p: Pid, job: Job)
    ensures Exec(s, Solo([], p, job)) == Exec(Apply(s, Spawn(p, job)), Steps(p))
  {
    assert Solo([], p, job) == [Spawn(p, job)] + Steps(p);
    ExecJoin(s, [Spawn(p, job)], Steps(p));
    ExecSnoc(s, [], Spawn(p, job));
    assert [] + [Spawn(p, job)] == [Spawn(p, job)];
  }

  /** An allowed call starts its recipient operation as `p`, which then runs to its end. */
  function Landing(c: Cid, p: Pid): seq<GAction> {
    [Go(c, false, false, p, {})] + Lift(Steps(p))
  }

  lemma Starts(h: Digests, s: GSys, c: Cid, p: Pid)
    requires c in s.calls && s.calls[c].pc.Allowed? && s.calls[c].request.Adding? && p !in s.sys.procs
    ensures var r, pc := s.calls[c].request, s.calls[c].pc;
      GExec(h, s, [Go(c, false, false, p, {})])
        == To(s, c, Applying(p, pc.cleaned, pc.t)).(sys := Apply(s.sys, Spawn(p, AddingJob(r, pc.cleaned))))
  {
    var pc, go := s.calls[c].pc, Go(c, false, false, p, {});
    GExecSnoc(h, s, [], go);
    assert [] + [go] == [go];
    assert GStep(h, s, go) == GoAllowed(s, c, pc.cleaned, pc.t, false, p);
  }

  // ---- the first steps ----------------------------------------------------------------------------

  lemma StepBegun(h: Digests, s: GSys, x: GSys, c: Cid, r: Request, p: Policy, cleaned: string)
    requires Here(s, x, c, r, Begun) && r.Adding? && CleanRecipient(r.recipient) == Some(cleaned)
    requires LoadPolicy(r.f) == Ok(Some(p)) && OperatorsClean(p.operators)
    ensures Here(s, GStep(h, x, Going(c)), c, r, if r.bootstrap then Counting(cleaned) else Gated(p, cleaned))
  {
    assert GStep(h, x, Going(c)) == To(x, c, AfterPolicy(r, false));
  }

  lemma StepGated(h: Digests, s: GSys, x: GSys, c: Cid, r: Request, p: Policy, cleaned: string)
    requires Here(s, x, c, r, Gated(p, cleaned)) && r.Adding? && LoadMeta(s.dir).Ok?
    requires LoadMeta(s.dir).value.Some? ==> MatchesPending(LoadMeta(s.dir).value.value, r.app, r.env, cleaned).None?
    ensures Here(s, GStep(h, x, Going(c)), c, r,
                 if LoadMeta(s.dir).value.None? then NothingPending(p, cleaned) else SomethingPending(p, cleaned))
  {
    assert GStep(h, x, Going(c)) == GoGated(x, c, p, cleaned, false);
  }

  // ---- counting alone -----------------------------------------------------------------------------

  /** A bootstrap addition is allowed exactly when the entry it finds has fewer than two recipients. */
  lemma {:induction false} CountsAlone(h: Digests, s: GSys, c: Cid, r: Request, p: Policy, cleaned: string)
    requires c !in s.calls && s.sys.lock.exclusive.None? && r.Adding? && r.bootstrap
    requires CleanRecipient(r.recipient) == Some(cleaned)
    requires LoadPolicy(r.f) == Ok(Some(p)) && OperatorsClean(p.operators)
    ensures var found := Lookup(s.sys.files, r.app, r.env);
      Here(s, GExec(h, s, Alone(c, r, 2)), c, r,
           if found.Err? || |found.value.recipients| >= 2 then Refused
           else Allowed(cleaned, Counted(found.value, |s.sys.log|)))
  {
    AloneBegins(h, s, c, r);
    AloneNext(h, s, c, r, 0);
    StepBegun(h, s, GExec(h, s, Alone(c, r, 0)), c, r, p, cleaned);
    AloneNext(h, s, c, r, 1);
    var x := GExec(h, s, Alone(c, r, 1));
    assert GStep(h, x, Going(c)) == GoCounting(x, c, cleaned, false);
  }

  // ---- preparing alone ----------------------------------------------------------------------------

  lemma ChallengeStep(h: Digests, s: GSys, x: GSys, c: Cid, r: Request, q: PrepareRequest, done: nat)
    requires OnlyNow(s, x, c, r, Preparing(q, done)) && r.Adding? && done < |q.policy.operators|
    requires x.dir == Challenges(h, s.dir, q.policy.operators[..done], MessageOf(h, MetaOf(q, r.nonce)))
    ensures var y := GStep(h, x, Going(c));
      && OnlyNow(s, y, c, r, Preparing(q, done + 1))
      && y.dir == Challenges(h, s.dir, q.policy.operators[..done + 1], MessageOf(h, MetaOf(q, r.nonce)))
  {
    assert GStep(h, x, Going(c)) == GoPreparing(h, x, c, q, done, false, false);
    assert q.policy.operators[..done + 1][..done] == q.policy.operators[..done];
  }

  lemma {:induction false} GosChallenges(h: Digests, s: GSys, c: Cid, r: Request, q: PrepareRequest, n: nat)
    requires OnlyNow(s, s, c, r, Preparing(q, 0)) && r.Adding? && n <= |q.policy.operators|
    ensures OnlyNow(s, GExec(h, s, Gos(c, n)), c, r, Preparing(q, n))
    ensures GExec(h, s, Gos(c, n)).dir
         == Challenges(h, s.dir, q.policy.operators[..n], MessageOf(h, MetaOf(q, r.nonce)))
  {
    if n > 0 {
      GosChallenges(h, s, c, r, q, n - 1);
      GExecSnoc(h, s, Gos(c, n - 1), Going(c));
      ChallengeStep(h, s, GExec(h, s, Gos(c, n - 1)), c, r, q, n - 1);
    }
  }

  /** A preparation that has begun writes what PrepareAdd writes, and so replaces whatever is pending
      by then. */
  lemma {:induction false} PreparationReplaces(h: Digests, s: GSys, c: Cid, r: Request, q: PrepareRequest)
    requires c in s.calls && s.calls[c] == Call(r, Preparing(q, 0)) && r.Adding? && PrepareCheck(q).None?
    ensures var x := GExec(h, s, Gos(c, |q.policy.operators| + 1));
      && OnlyNow(s, x, c, r, Waiting) && LoadMeta(x.dir) == Ok(Some(MetaOf(q, r.nonce)))
      && PrepareRun(h, s.dir, q, r.nonce, NoFault) == (x.dir, None)
  {
    var n := |q.policy.operators|;
    assert s.calls == s.calls[c := Call(r, Preparing(q, 0))];
    GosChallenges(h, s, c, r, q, n);
    GExecSnoc(h, s, Gos(c, n), Going(c));
    var x := GExec(h, s, Gos(c, n));
    assert q.policy.operators[..n] == q.policy.operators;
    assert GStep(h, x, Going(c)) == GoPreparing(h, x, c, q, n, false, false);
  }

  /** The request passes every check up to the first challenge. */
  predicate CanPrepare(s: GSys, r: Request) {
    && r.Adding? && !r.bootstrap && r.who != "" && CleanRecipient(r.recipient).Some?
    && LoadPolicy(r.f).Ok? && LoadPolicy(r.f).value.Some? && OperatorsClean(LoadPolicy(r.f).value.value.operators)
    && Lookup(s.sys.files, r.app, r.env).Ok? && PrepareCheck(Asked(s, r)).None?
  }

  function Asked(s: GSys, r: Request): PrepareRequest
    requires r.Adding? && CleanRecipient(r.recipient).Some? && Lookup(s.sys.files, r.app, r.env).Ok?
    requires LoadPolicy(r.f).Ok? && LoadPolicy(r.f).value.Some?
  {
    PrepareRequest(r.app, r.env, CleanRecipient(r.recipient).value, Lookup(s.sys.files, r.app, r.env).value.sha,
                   LoadPolicy(r.f).value.value, r.who)
  }

  lemma StepNothing(h: Digests, s: GSys, x: GSys, c: Cid, r: Request, p: Policy, cleaned: string)
    requires CanPrepare(s, r) && s.sys.lock.exclusive.None?
    requires p == LoadPolicy(r.f).value.value && cleaned == CleanRecipient(r.recipient).value
    requires Here(s, x, c, r, NothingPending(p, cleaned))
    ensures Here(s, GStep(h, x, Going(c)), c, r, Preparing(Asked(s, r), 0))
  {
    assert GStep(h, x, Going(c)) == GoNothing(x, c, p, cleaned, false);
  }

  /** With nothing pending, a call gets as far as its first challenge. */
  lemma {:induction false} Opens(h: Digests, s: GSys, c: Cid, r: Request)
    requires c !in s.calls && CanPrepare(s, r) && LoadMeta(s.dir) == Ok(None) && s.sys.lock.exclusive.None?
    ensures Here(s, GExec(h, s, Alone(c, r, 3)), c, r, Preparing(Asked(s, r), 0))
  {
    var p, cleaned := LoadPolicy(r.f).value.value, CleanRecipient(r.recipient).value;
    AloneBegins(h, s, c, r);
    AloneNext(h, s, c, r, 0);
    StepBegun(h, s, GExec(h, s, Alone(c, r, 0)), c, r, p, cleaned);
    AloneNext(h, s, c, r, 1);
    StepGated(h, s, GExec(h, s, Alone(c, r, 1)), c, r, p, cleaned);
    AloneNext(h, s, c, r, 2);
    StepNothing(h, s, GExec(h, s, Alone(c, r, 2)), c, r, p, cleaned);
  }

  // ---- verifying alone ----------------------------------------------------------------------------

  /** Metadata for this very addition and for the entry as it is now. */
  predicate CanVerify(s: GSys, r: Request, p: Policy, cleaned: string, found: EnvMeta, m: Meta) {
    && UnderPolicy(r, p, cleaned) && OperatorsClean(p.operators)
    && LoadMeta(s.dir) == Ok(Some(m)) && MatchesPending(m, r.app, r.env, cleaned).None?
    && Lookup(s.sys.files, r.app, r.env) == Ok(found)
    && MetaMatches(m, VerifyRequest(r.app, r.env, cleaned, found.sha, p)).None?
  }

  function CollectingAt(h: Digests, s: GSys, r: Request, p: Policy, cleaned: string, found: EnvMeta, m: Meta, n: nat)
    : CallPc
    requires n <= |Sorted(s.dir.Keys)|
  {
    var names := Sorted(s.dir.Keys);
    Collecting(p, cleaned, found, |s.sys.log|, m, names, n, Collected(h, s.dir, r.who, m, names[..n]))
  }

  lemma StepSomething(h: Digests, s: GSys, x: GSys, c: Cid, r: Request, p: Policy, cleaned: string, found: EnvMeta)
    requires Here(s, x, c, r, SomethingPending(p, cleaned)) && s.sys.lock.exclusive.None? && r.Adding?
    requires Lookup(s.sys.files, r.app, r.env) == Ok(found)
    ensures Here(s, GStep(h, x, Going(c)), c, r, EntryFound(p, cleaned, found, |s.sys.log|))
  {
    assert GStep(h, x, Going(c)) == GoSomething(x, c, p, cleaned, false);
  }

  lemma StepEntryFound(h: Digests, s: GSys, x: GSys, c: Cid, r: Request, p: Policy, cleaned: string, found: EnvMeta,
                       m: Meta)
    requires Here(s, x, c, r, EntryFound(p, cleaned, found, |s.sys.log|)) && CanVerify(s, r, p, cleaned, found, m)
    ensures Here(s, GStep(h, x, Going(c)), c, r, MetaChecked(p, cleaned, found, |s.sys.log|, m))
  {
    assert GStep(h, x, Going(c)) == GoEntryFound(x, c, x.calls[c].pc, false);
  }

  lemma StepMetaChecked(h: Digests, s: GSys, x: GSys, c: Cid, r: Request, p: Policy, cleaned: string, found: EnvMeta,
                        m: Meta)
    requires Here(s, x, c, r, MetaChecked(p, cleaned, found, |s.sys.log|, m))
    ensures Here(s, GStep(h, x, Going(c)), c, r, CollectingAt(h, s, r, p, cleaned, found, m, 0))
  {
    assert GStep(h, x, Going(c)) == GoMetaChecked(x, c, x.calls[c].pc, false);
  }

  lemma StepCollecting(h: Digests, s: GSys, x: GSys, c: Cid, r: Request, p: Policy, cleaned: string, found: EnvMeta,
                       m: Meta, n: nat)
    requires n < |Sorted(s.dir.Keys)| && Here(s, x, c, r, CollectingAt(h, s, r, p, cleaned, found, m, n))
    ensures Here(s, GStep(h, x, Going(c)), c, r, CollectingAt(h, s, r, p, cleaned, found, m, n + 1))
  {
    OneName(h, x, c, x.calls[c].pc);
    NextAt(h, s, r, p, cleaned, found, m, n);
    ToHere(s, x, c, r, x.calls[c].pc, CollectingAt(h, s, r, p, cleaned, found, m, n + 1));
  }

  lemma ToHere(s: GSys, x: GSys, c: Cid, r: Request, pc: CallPc, after: CallPc)
    requires Here(s, x, c, r, pc)
    ensures Here(s, To(x, c, after), c, r, after)
  {
  }

  lemma NextAt(h: Digests, s: GSys, r: Request, p: Policy, cleaned: string, found: EnvMeta, m: Meta, n: nat)
    requires n < |Sorted(s.dir.Keys)|
    ensures var pc := CollectingAt(h, s, r, p, cleaned, found, m, n);
      CollectingAt(h, s, r, p, cleaned, found, m, n + 1)
        == pc.(done := pc.done + 1, out := CollectOne(h, s.dir, r.who, pc.m, pc.out, pc.names[pc.done]))
  {
    CollectedNext(h, s.dir, r.who, m, Sorted(s.dir.Keys), n);
  }

  lemma OneName(h: Digests, x: GSys, c: Cid, pc: CallPc)
    requires c in x.calls && x.calls[c].pc == pc && pc.Collecting? && pc.done < |pc.names|
    ensures GStep(h, x, Going(c))
         == To(x, c, pc.(done := pc.done + 1,
                         out := CollectOne(h, x.dir, x.calls[c].request.who, pc.m, pc.out, pc.names[pc.done])))
  {
    assert GStep(h, x, Going(c)) == GoCollecting(h, x, c, pc, false);
  }

  lemma StepDecides(h: Digests, s: GSys, x: GSys, c: Cid, r: Request, p: Policy, cleaned: string, found: EnvMeta,
                    m: Meta, out: seq<Operator>)
    requires Here(s, x, c, r, CollectingAt(h, s, r, p, cleaned, found, m, |Sorted(s.dir.Keys)|))
    requires out == Collected(h, s.dir, r.who, m, Sorted(s.dir.Keys))
    ensures Here(s, GStep(h, x, Going(c)), c, r,
                 if |out| < m.m then Refused else Allowed(cleaned, Approved(m, out, found, |s.sys.log|)))
  {
    var names := Sorted(s.dir.Keys);
    assert names[..|names|] == names;
    assert GStep(h, x, Going(c)) == GoCollecting(h, x, c, x.calls[c].pc, false);
  }

  lemma {:induction false} ReachesListing(h: Digests, s: GSys, c: Cid, r: Request, p: Policy, cleaned: string,
                                          found: EnvMeta, m: Meta)
    requires c !in s.calls && s.sys.lock.exclusive.None? && CanVerify(s, r, p, cleaned, found, m)
    ensures Here(s, GExec(h, s, Alone(c, r, 5)), c, r, CollectingAt(h, s, r, p, cleaned, found, m, 0))
  {
    AloneBegins(h, s, c, r);
    AloneNext(h, s, c, r, 0);
    StepBegun(h, s, GExec(h, s, Alone(c, r, 0)), c, r, p, cleaned);
    AloneNext(h, s, c, r, 1);
    StepGated(h, s, GExec(h, s, Alone(c, r, 1)), c, r, p, cleaned);
    AloneNext(h, s, c, r, 2);
    StepSomething(h, s, GExec(h, s, Alone(c, r, 2)), c, r, p, cleaned, found);
    AloneNext(h, s, c, r, 3);
    StepEntryFound(h, s, GExec(h, s, Alone(c, r, 3)), c, r, p, cleaned, found, m);
    AloneNext(h, s, c, r, 4);
    StepMetaChecked(h, s, GExec(h, s, Alone(c, r, 4)), c, r, p, cleaned, found, m);
  }

  lemma {:induction false} CollectsAlone(h: Digests, s: GSys, c: Cid, r: Request, p: Policy, cleaned: string,
                                         found: EnvMeta, m: Meta, n: nat)
    requires c !in s.calls && s.sys.lock.exclusive.None? && CanVerify(s, r, p, cleaned, found, m)
    requires n <= |Sorted(s.dir.Keys)|
    ensures Here(s, GExec(h, s, Alone(c, r, 5 + n)), c, r, CollectingAt(h, s, r, p, cleaned, found, m, n))
  {
    if n == 0 {
      ReachesListing(h, s, c, r, p, cleaned, found, m);
    } else {
      CollectsAlone(h, s, c, r, p, cleaned, found, m, n - 1);
      AloneNext(h, s, c, r, 4 + n);
      StepCollecting(h, s, GExec(h, s, Alone(c, r, 4 + n)), c, r, p, cleaned, found, m, n - 1);
    }
  }

  /** What the call does next when Verify counts what it counts. */
  function Decision(h: Digests, s: GSys, r: Request, p: Policy, cleaned: string, found: EnvMeta, m: Meta): CallPc
    requires r.Adding?
  {
    match Quorum.Counted(h, s.dir, r.who, VerifyRequest(r.app, r.env, cleaned, found.sha, p))
    case Err(_) => Refused
    case Ok(ops) => Allowed(cleaned, Approved(m, ops, found, |s.sys.log|))
  }

  lemma DecisionIs(h: Digests, s: GSys, r: Request, p: Policy, cleaned: string, found: EnvMeta, m: Meta)
    requires CanVerify(s, r, p, cleaned, found, m) && DistinctThumbs(h, m.operators)
    ensures var out := Collected(h, s.dir, r.who, m, Sorted(s.dir.Keys));
      && Decision(h, s, r, p, cleaned, found, m)
         == (if |out| < m.m then Refused else Allowed(cleaned, Approved(m, out, found, |s.sys.log|)))
      && |out| == |Signers(h, s.dir, r.who, m)| && m.m == p.m
  {
    CollectedIsSigners(h, s.dir, r.who, m);
  }

  /** A verification that runs alone counts what Verify counts, and the addition is allowed exactly
      when at least M distinct operators have signed. */
  lemma {:induction false} VerifiesAlone(h: Digests, s: GSys, c: Cid, r: Request, p: Policy, cleaned: string,
                                         found: EnvMeta, m: Meta)
    requires c !in s.calls && s.sys.lock.exclusive.None? && CanVerify(s, r, p, cleaned, found, m)
    requires DistinctThumbs(h, m.operators)
    ensures Here(s, GExec(h, s, Alone(c, r, 6 + |Sorted(s.dir.Keys)|)), c, r, Decision(h, s, r, p, cleaned, found, m))
    ensures Decision(h, s, r, p, cleaned, found, m).Allowed? <==> |Signers(h, s.dir, r.who, m)| >= p.m
  {
    var n, out := |Sorted(s.dir.Keys)|, Collected(h, s.dir, r.who, m, Sorted(s.dir.Keys));
    CollectsAlone(h, s, c, r, p, cleaned, found, m, n);
    AloneNext(h, s, c, r, 5 + n);
    StepDecides(h, s, GExec(h, s, Alone(c, r, 5 + n)), c, r, p, cleaned, found, m, out);
    DecisionIs(h, s, r, p, cleaned, found, m);
  }

  // ---- signing alone ------------------------------------------------------------------------------

  lemma StepRefused(h: Digests, s: GSys, x: GSys, c: Cid, r: Request)
    requires OnlyNow(s, x, c, r, Refused)
    ensures GStep(h, x, Going(c)) == x
  {
  }

  lemma StepBegins(h: Digests, s: GSys, x: GSys, c: Cid, r: Request)
    requires Here(s, x, c, r, Begun)
    ensures Here(s, GStep(h, x, Going(c)), c, r, AfterPolicy(r, false))
  {
    assert GStep(h, x, Going(c)) == To(x, c, AfterPolicy(r, false));
  }

  /** What the step at SignGated finds. */
  function GatedNext(h: Digests, dir: PendingDir, r: Request, cleaned: string, operator: string): CallPc
    requires r.Signing?
  {
    var meta := LoadMeta(dir);
    if operator == "" || meta.Err? || meta.value.None? then Refused
    else if SignMatches(meta.value.value, SignRequest(r.app, r.env, cleaned, operator)).Some? then Refused
    else if OperatorByThumb(h, meta.value.value.operators, h.thumb(operator)).None? then Refused
    else SignLoaded(operator, meta.value.value)
  }

  lemma StepSignGated(h: Digests, s: GSys, x: GSys, c: Cid, r: Request, cleaned: string, operator: string)
    requires Here(s, x, c, r, SignGated(cleaned, operator)) && r.Signing?
    ensures Here(s, GStep(h, x, Going(c)), c, r, GatedNext(h, s.dir, r, cleaned, operator))
  {
    assert GStep(h, x, Going(c)) == GoSignGated(h, x, c, cleaned, operator, false);
  }

  function LoadedNext(h: Digests, dir: PendingDir, who: string, operator: string, m: Meta): CallPc {
    var plain := Quorum.Decrypted(dir, ChallengeName(h.thumb(operator)), who);
    if plain.None? || !Accepted(h, plain.value, m) then Refused else SignOpened(operator, m, plain.value)
  }

  lemma StepSignLoaded(h: Digests, s: GSys, x: GSys, c: Cid, r: Request, operator: string, m: Meta)
    requires Here(s, x, c, r, SignLoaded(operator, m))
    ensures Here(s, GStep(h, x, Going(c)), c, r, LoadedNext(h, s.dir, r.who, operator, m))
  {
    assert GStep(h, x, Going(c)) == GoSignLoaded(h, x, c, operator, m, false);
  }

  lemma StepSignOpened(h: Digests, s: GSys, x: GSys, c: Cid, r: Request, operator: string, m: Meta, plain: string)
    requires Here(s, x, c, r, SignOpened(operator, m, plain))
    ensures OnlyNow(s, GStep(h, x, Going(c)), c, r, Signed)
    ensures GStep(h, x, Going(c)).dir == s.dir[SigName(h.thumb(operator)) := Age([m.verifier], plain)]
  {
    assert GStep(h, x, Going(c)) == GoSignOpened(h, x, c, x.calls[c].pc, false, false);
  }

  /** The directory and the end of a signature that nobody interferes with. */
  ghost predicate SignedAs(h: Digests, s: GSys, x: GSys, c: Cid, r: Request)
    requires r.Signing?
  {
    var (dir, e) := SignBy(h, s.dir, r.f, r.app, r.env, r.recipient, r.who, SignOk);
    OnlyNow(s, x, c, r, if e.None? then Signed else Refused) && x.dir == dir
  }

  /** What SignAdd does, told by the steps' own checks. */
  ghost predicate SignTold(h: Digests, dir: PendingDir, r: Request, cleaned: string, operator: string,
                           after: PendingDir, failed: bool)
    requires r.Signing?
  {
    match GatedNext(h, dir, r, cleaned, operator)
    case SignLoaded(_, m) =>
      (match LoadedNext(h, dir, r.who, operator, m)
       case SignOpened(_, _, plain) =>
         !failed && after == dir[SigName(h.thumb(operator)) := Age([m.verifier], plain)]
       case _ => failed && after == dir)
    case _ => failed && after == dir
  }

  lemma SignRunIs(h: Digests, dir: PendingDir, r: Request, cleaned: string, operator: string)
    requires r.Signing? && cleaned != ""
    ensures var (after, e) := SignRun(h, dir, SignRequest(r.app, r.env, cleaned, operator), r.who, SignOk);
      SignTold(h, dir, r, cleaned, operator, after, e.Some?)
  {
  }

  lemma SignByIs(h: Digests, dir: PendingDir, r: Request)
    requires r.Signing?
    ensures var (after, e) := SignBy(h, dir, r.f, r.app, r.env, r.recipient, r.who, SignOk);
      match AfterPolicy(r, false)
      case SignGated(cleaned, operator) => SignTold(h, dir, r, cleaned, operator, after, e.Some?)
      case _ => e.Some? && after == dir
  {
    var next := AfterPolicy(r, false);
    if next.SignGated? {
      SignRunIs(h, dir, r, next.cleaned, next.operator);
    }
  }

  ghost predicate Wrote(h: Digests, s: GSys, x: GSys, c: Cid, r: Request, operator: string, m: Meta, plain: string) {
    OnlyNow(s, x, c, r, Signed) && x.dir == s.dir[SigName(h.thumb(operator)) := Age([m.verifier], plain)]
  }

  lemma FromLoaded(h: Digests, s: GSys, x: GSys, c: Cid, r: Request, operator: string, m: Meta)
    requires Here(s, x, c, r, SignLoaded(operator, m))
    ensures var y := GStep(h, GStep(h, x, Going(c)), Going(c));
      match LoadedNext(h, s.dir, r.who, operator, m)
      case SignOpened(_, _, plain) => Wrote(h, s, y, c, r, operator, m, plain)
      case _ => Here(s, y, c, r, Refused)
  {
    StepSignLoaded(h, s, x, c, r, operator, m);
    var next := LoadedNext(h, s.dir, r.who, operator, m);
    if next.SignOpened? {
      StepSignOpened(h, s, GStep(h, x, Going(c)), c, r, operator, m, next.plain);
    } else {
      StepRefused(h, s, GStep(h, x, Going(c)), c, r);
    }
  }

  lemma FromGated(h: Digests, s: GSys, x: GSys, c: Cid, r: Request, cleaned: string, operator: string)
    requires Here(s, x, c, r, SignGated(cleaned, operator)) && r.Signing?
    ensures var y := GStep(h, GStep(h, GStep(h, x, Going(c)), Going(c)), Going(c));
      match GatedNext(h, s.dir, r, cleaned, operator)
      case SignLoaded(_, m) =>
        (match LoadedNext(h, s.dir, r.who, operator, m)
         case SignOpened(_, _, plain) => Wrote(h, s, y, c, r, operator, m, plain)
         case _ => Here(s, y, c, r, Refused))
      case _ => Here(s, y, c, r, Refused)
  {
    StepSignGated(h, s, x, c, r, cleaned, operator);
    var x1 := GStep(h, x, Going(c));
    var next := GatedNext(h, s.dir, r, cleaned, operator);
    if next.SignLoaded? {
      FromLoaded(h, s, x1, c, r, operator, next.m);
    } else {
      StepRefused(h, s, x1, c, r);
    }
  }

  lemma FourSteps(h: Digests, s: GSys, c: Cid, r: Request)
    ensures var x := GExec(h, s, Alone(c, r, 1));
      GExec(h, s, Alone(c, r, 4)) == GStep(h, GStep(h, GStep(h, x, Going(c)), Going(c)), Going(c))
  {
    AloneNext(h, s, c, r, 1);
    AloneNext(h, s, c, r, 2);
    AloneNext(h, s, c, r, 3);
  }

  /** A signature that is alone does step by step what SignBy does, refusals included. */
  lemma {:induction false} SignsAlone(h: Digests, s: GSys, c: Cid, r: Request)
    requires c !in s.calls && r.Signing?
    ensures SignedAs(h, s, GExec(h, s, Alone(c, r, 4)), c, r)
  {
    var x, next := GExec(h, s, Alone(c, r, 1)), AfterPolicy(r, false);
    SignByIs(h, s.dir, r);
    AloneBegins(h, s, c, r);
    AloneNext(h, s, c, r, 0);
    StepBegins(h, s, GExec(h, s, Alone(c, r, 0)), c, r);
    FourSteps(h, s, c, r);
    if next.SignGated? {
      FromGated(h, s, x, c, r, next.cleaned, next.operator);
    } else {
      StepRefused(h, s, x, c, r);
    }
  }
}
