/** The gate as a step machine refines the gate as one call: whatever is asked, a call whose steps
    run with nobody in between and without a failing access ends as `Gate` says. */
module GateRefines {
  import opened Strings
  import opened Sorting
  import opened Validate
  import opened Files
  import opened Edits
  import opened Transactions
  import opened Protocol
  import opened ProtocolSolo
  import opened Quorum
  import opened QuorumLaws
  import opened Gate
  import opened GateRuns
  import opened GateSound
  import opened GateAlone

  // ---- the end of a call --------------------------------------------------------------------------

  /** The request as one call in which nothing fails. */
  function AsCall(r: Request): AddRequest
    requires r.Adding?
  {
    AddRequest(r.app, r.env, r.recipient, r.bootstrap, r.who, r.at, r.nonce, NO_FAULTS, NoFault, {})
  }

  predicate Says(pc: CallPc, answer: Answer) {
    match answer
    case Err(_) => pc.Refused?
    case Ok(AwaitSignatures(_, _)) => pc.Waiting?
    case Ok(Added(_)) => pc.Granted?
  }

  /** The call is over, with this store, this directory and this answer. */
  ghost predicate Ends(s: GSys, x: GSys, c: Cid, r: Request, w: World, answer: Answer) {
    && Disk(x.sys.files, x.sys.nextId) == w.disk && x.dir == w.dir && x.sys.lock == FREE
    && c in x.calls && x.calls == s.calls[c := Call(r, x.calls[c].pc)] && Says(x.calls[c].pc, answer)
  }

  // ---- nothing left to do -------------------------------------------------------------------------

  lemma NoStep(h: Digests, x: GSys, c: Cid, p: Pid)
    requires c in x.calls && x.calls[c].pc.Refused?
    ensures GStep(h, x, Go(c, false, false, p, {})) == x
  {
  }

  lemma {:induction false} GosRefused(h: Digests, x: GSys, c: Cid, n: nat)
    requires c in x.calls && x.calls[c].pc.Refused?
    ensures GExec(h, x, Gos(c, n)) == x
  {
    if n > 0 {
      GosRefused(h, x, c, n - 1);
      StillThere(h, x, c, n);
    }
  }

  lemma StillThere(h: Digests, x: GSys, c: Cid, n: nat)
    requires n > 0 && c in x.calls && x.calls[c].pc.Refused? && GExec(h, x, Gos(c, n - 1)) == x
    ensures GExec(h, x, Gos(c, n)) == x
  {
    NoStep(h, x, c, 0);
    GExecSnoc(h, x, Gos(c, n - 1), Going(c));
  }

  lemma {:induction false} NobodySteps(s: Sys, run: seq<Action>, p: Pid)
    requires p !in s.procs && forall i :: 0 <= i < |run| ==> run[i] == Step(p, false)
    ensures Exec(s, run) == s
  {
    if run != [] {
      NobodySteps(s, run[..|run| - 1], p);
    }
  }

  /** An allowed call starts its operation, waits for its end and clears. */
  function Rest(c: Cid, p: Pid): seq<GAction> {
    Landing(c, p) + Gos(c, 2)
  }

  lemma {:induction false} RestRefused(h: Digests, x: GSys, c: Cid, p: Pid)
    requires c in x.calls && x.calls[c].pc.Refused? && p !in x.sys.procs
    ensures GExec(h, x, Rest(c, p)) == x
  {
    LandingRefused(h, x, c, p);
    GExecJoin(h, x, Landing(c, p), Gos(c, 2));
    GosRefused(h, x, c, 2);
  }

  lemma {:induction false} LandingRefused(h: Digests, x: GSys, c: Cid, p: Pid)
    requires c in x.calls && x.calls[c].pc.Refused? && p !in x.sys.procs
    ensures GExec(h, x, Landing(c, p)) == x
  {
    var go := Go(c, false, false, p, {});
    GExecOne(h, x, go);
    NoStep(h, x, c, p);
    GExecJoin(h, x, [go], Lift(Steps(p)));
    LiftExec(h, x, Steps(p));
    NobodySteps(x.sys, Steps(p), p);
  }

  lemma StillRefused(h: Digests, s: GSys, c: Cid, r: Request, n: nat)
    requires Here(s, GExec(h, s, Alone(c, r, n)), c, r, Refused)
    ensures Here(s, GExec(h, s, Alone(c, r, n + 1)), c, r, Refused)
  {
    AloneNext(h, s, c, r, n);
    StepRefused(h, s, GExec(h, s, Alone(c, r, n)), c, r);
  }

  // ---- an allowed call ----------------------------------------------------------------------------

  /** The operation of the call has ended as `done`. */
  ghost predicate Landed(s: GSys, x: GSys, c: Cid, r: Request, p: Pid, cleaned: string, t: Ticket, done: Ended) {
    && Disk(x.sys.files, x.sys.nextId) == done.disk && x.sys.lock == FREE && x.dir == s.dir
    && p in x.sys.procs && x.sys.procs[p].pc == (if done.error.None? then CommitDone else Failed)
    && x.calls == s.calls[c := Call(r, Applying(p, cleaned, t))]
  }

  function Operation(s: GSys, r: Request, cleaned: string): Ended
    requires r.Adding?
  {
    RunJob(Disk(s.sys.files, s.sys.nextId), AddingJob(r, cleaned), NO_FAULTS)
  }

  lemma {:induction false} AllowedLands(h: Digests, s: GSys, x: GSys, c: Cid, r: Request, cleaned: string, t: Ticket,
                                        p: Pid)
    requires Here(s, x, c, r, Allowed(cleaned, t)) && r.Adding? && s.sys.lock == FREE && p !in s.sys.procs
    ensures Landed(s, GExec(h, x, Landing(c, p)), c, r, p, cleaned, t, Operation(s, r, cleaned))
  {
    var go := Go(c, false, false, p, {});
    Starts(h, x, c, p);
    GExecJoin(h, x, [go], Lift(Steps(p)));
    LiftExec(h, GExec(h, x, [go]), Steps(p));
    SoloIs(s.sys, p, AddingJob(r, cleaned));
    SoloEnds(s.sys, [], p, AddingJob(r, cleaned));
    LandedThen(s, x, Exec(s.sys, Solo([], p, AddingJob(r, cleaned))), c, r, cleaned, t, p, Operation(s, r, cleaned));
  }

  lemma LandedThen(s: GSys, x: GSys, sys: Sys, c: Cid, r: Request, cleaned: string, t: Ticket, p: Pid, done: Ended)
    requires Here(s, x, c, r, Allowed(cleaned, t)) && r.Adding?
    requires Disk(sys.files, sys.nextId) == done.disk && sys.lock == FREE
    requires With(sys, s.sys, p, AddingJob(r, cleaned), if done.error.None? then CommitDone else Failed)
    ensures Landed(s, To(x, c, Applying(p, cleaned, t)).(sys := sys), c, r, p, cleaned, t, done)
  {
  }

  ghost predicate Finished(s: GSys, x: GSys, c: Cid, r: Request, cleaned: string, t: Ticket, done: Ended) {
    && Disk(x.sys.files, x.sys.nextId) == done.disk && x.sys.lock == FREE
    && x.dir == (if done.error.None? && t.Approved? then map[] else s.dir)
    && x.calls == s.calls[c := Call(r, if done.error.None? then Granted(cleaned, t) else Refused)]
  }

  lemma LandedFinishes(h: Digests, s: GSys, x: GSys, c: Cid, r: Request, p: Pid, cleaned: string, t: Ticket,
                       done: Ended)
    requires Landed(s, x, c, r, p, cleaned, t, done)
    ensures Finished(s, GStep(h, GStep(h, x, Going(c)), Going(c)), c, r, cleaned, t, done)
  {
    var y := To(x, c, AfterOperation(x.sys.procs[p].pc, cleaned, t));
    OperationOver(h, x, c, p, cleaned, t);
    LastStep(h, y, c, cleaned, t);
    FinishedThen(s, x, y, if y.calls[c].pc.Clearing? then To(y, c, Granted(cleaned, t)).(dir := map[]) else y,
                 c, r, p, cleaned, t, done);
  }

  function AfterOperation(pc: Pc, cleaned: string, t: Ticket): CallPc {
    if pc.Failed? then Refused else if t.Approved? then Clearing(cleaned, t) else Granted(cleaned, t)
  }

  lemma FinishedThen(s: GSys, x: GSys, y: GSys, z: GSys, c: Cid, r: Request, p: Pid, cleaned: string, t: Ticket,
                     done: Ended)
    requires Landed(s, x, c, r, p, cleaned, t, done)
    requires y == To(x, c, AfterOperation(x.sys.procs[p].pc, cleaned, t))
    requires z == if y.calls[c].pc.Clearing? then To(y, c, Granted(cleaned, t)).(dir := map[]) else y
    ensures Finished(s, z, c, r, cleaned, t, done)
  {
  }

  lemma OperationOver(h: Digests, x: GSys, c: Cid, p: Pid, cleaned: string, t: Ticket)
    requires c in x.calls && x.calls[c].pc == Applying(p, cleaned, t) && p in x.sys.procs
    requires x.sys.procs[p].pc.CommitDone? || x.sys.procs[p].pc.Failed?
    ensures GStep(h, x, Going(c)) == To(x, c, AfterOperation(x.sys.procs[p].pc, cleaned, t))
  {
    assert GStep(h, x, Going(c)) == GoApplying(x, c, p, cleaned, t);
  }

  lemma LastStep(h: Digests, y: GSys, c: Cid, cleaned: string, t: Ticket)
    requires c in y.calls
    ensures y.calls[c].pc == Clearing(cleaned, t) ==>
      GStep(h, y, Going(c)) == To(y, c, Granted(cleaned, t)).(dir := map[])
    ensures y.calls[c].pc.Granted? || y.calls[c].pc.Refused? ==> GStep(h, y, Going(c)) == y
  {
    if y.calls[c].pc == Clearing(cleaned, t) {
      assert GStep(h, y, Going(c)) == GoClearing(y, c, cleaned, t, {});
    }
  }

  lemma TwoGos(h: Digests, y: GSys, c: Cid)
    ensures GExec(h, y, Gos(c, 2)) == GStep(h, GStep(h, y, Going(c)), Going(c))
  {
    assert Gos(c, 1) == [Going(c)];
    GExecOne(h, y, Going(c));
    GExecSnoc(h, y, Gos(c, 1), Going(c));
  }

  lemma {:induction false} AllowedEnds(h: Digests, s: GSys, x: GSys, c: Cid, r: Request, cleaned: string, t: Ticket,
                                       p: Pid)
    requires Here(s, x, c, r, Allowed(cleaned, t)) && r.Adding? && s.sys.lock == FREE && p !in s.sys.procs
    ensures Finished(s, GExec(h, x, Rest(c, p)), c, r, cleaned, t, Operation(s, r, cleaned))
  {
    var y := GExec(h, x, Landing(c, p));
    AllowedLands(h, s, x, c, r, cleaned, t, p);
    GExecJoin(h, x, Landing(c, p), Gos(c, 2));
    TwoGos(h, y, c);
    LandedFinishes(h, s, y, c, r, p, cleaned, t, Operation(s, r, cleaned));
  }

  // ---- the whole call -----------------------------------------------------------------------------

  /** The verification does not get to the listing. */
  predicate StopsEarly(s: GSys, r: Request, policy: Policy, cleaned: string)
    requires r.Adding? && LoadMeta(s.dir) != Ok(None)
  {
    var found, meta := Lookup(s.sys.files, r.app, r.env), LoadMeta(s.dir);
    || meta.Err? || MatchesPending(meta.value.value, r.app, r.env, cleaned).Some? || found.Err?
    || MetaMatches(meta.value.value, VerifyRequest(r.app, r.env, cleaned, found.value.sha, policy)).Some?
  }

  /** The steps of the call, as many as it takes. */
  function Through(s: GSys, c: Cid, r: Request, p: Pid): seq<GAction>
    requires r.Adding?
  {
    match AfterPolicy(r, false)
    case Counting(_) => Alone(c, r, 2) + Rest(c, p)
    case Gated(policy, cleaned) =>
      if LoadMeta(s.dir) == Ok(None) then Alone(c, r, 3) + Gos(c, |policy.operators| + 1)
      else if StopsEarly(s, r, policy, cleaned) then Alone(c, r, 4)
      else Alone(c, r, 6 + |Sorted(s.dir.Keys)|) + Rest(c, p)
    case _ => Alone(c, r, 1) + Rest(c, p)
  }

  ghost predicate Idle(s: GSys, c: Cid, r: Request, p: Pid) {
    r.Adding? && c !in s.calls && s.sys.lock == FREE && p !in s.sys.procs
  }

  function WorldOf(s: GSys): World {
    World(Disk(s.sys.files, s.sys.nextId), s.dir)
  }

  lemma FirstStep(h: Digests, s: GSys, c: Cid, r: Request)
    requires c !in s.calls
    ensures Here(s, GExec(h, s, Alone(c, r, 1)), c, r, AfterPolicy(r, false))
  {
    AloneBegins(h, s, c, r);
    AloneNext(h, s, c, r, 0);
    StepBegins(h, s, GExec(h, s, Alone(c, r, 0)), c, r);
  }

  /** A call that has stopped at a refusal. */
  lemma {:induction false} RefusedEnds(h: Digests, s: GSys, c: Cid, r: Request, p: Pid, first: seq<GAction>, e: GateError)
    requires Idle(s, c, r, p) && Here(s, GExec(h, s, first), c, r, Refused)
    ensures Ends(s, GExec(h, s, first + Rest(c, p)), c, r, WorldOf(s), Err(e))
  {
    GExecJoin(h, s, first, Rest(c, p));
    RestRefused(h, GExec(h, s, first), c, p);
  }

  /** A call that is allowed after its first steps. */
  lemma {:induction false} AllowedIs(h: Digests, s: GSys, c: Cid, r: Request, p: Pid, first: seq<GAction>,
                                     cleaned: string, t: Ticket, signed: VerifyResult)
    requires Idle(s, c, r, p) && Here(s, GExec(h, s, first), c, r, Allowed(cleaned, t))
    ensures var (w, answer) := ApplyAdd(WorldOf(s), AsCall(r), cleaned, signed);
      Ends(s, GExec(h, s, first + Rest(c, p)), c, r,
           if answer.Ok? && t.Approved? then w.(dir := Cleared(s.dir, {})) else w, answer)
  {
    GExecJoin(h, s, first, Rest(c, p));
    AllowedEnds(h, s, GExec(h, s, first), c, r, cleaned, t, p);
  }

  ghost predicate Refines(h: Digests, s: GSys, c: Cid, r: Request, p: Pid)
    requires r.Adding?
  {
    var (w, answer) := Add(h, WorldOf(s), r.f, AsCall(r));
    Ends(s, GExec(h, s, Through(s, c, r, p)), c, r, w, answer)
  }

  /** From the one call and the steps apart to the two together. */
  lemma RefinesBy(h: Digests, s: GSys, c: Cid, r: Request, p: Pid, run: seq<GAction>, w: World, answer: Answer)
    requires r.Adding? && Add(h, WorldOf(s), r.f, AsCall(r)) == (w, answer) && Through(s, c, r, p) == run
    requires Ends(s, GExec(h, s, run), c, r, w, answer)
    ensures Refines(h, s, c, r, p)
  {
  }

  lemma {:induction false} PlainRefines(h: Digests, s: GSys, c: Cid, r: Request, p: Pid)
    requires Idle(s, c, r, p) && !AfterPolicy(r, false).Gated? && !AfterPolicy(r, false).Counting?
    ensures Refines(h, s, c, r, p)
  {
    FirstStep(h, s, c, r);
    var pc := AfterPolicy(r, false);
    var (w, answer) := Add(h, WorldOf(s), r.f, AsCall(r));
    if pc.Allowed? {
      AllowedIs(h, s, c, r, p, Alone(c, r, 1), pc.cleaned, pc.t, NOBODY);
    } else {
      assert answer.Err? && w == WorldOf(s);
      RefusedEnds(h, s, c, r, p, Alone(c, r, 1), answer.error);
    }
  }

  lemma {:induction false} BootstrapRefines(h: Digests, s: GSys, c: Cid, r: Request, p: Pid)
    requires Idle(s, c, r, p) && AfterPolicy(r, false).Counting?
    ensures Refines(h, s, c, r, p)
  {
    var cleaned, policy := CleanRecipient(r.recipient).value, LoadPolicy(r.f).value.value;
    var found := Lookup(s.sys.files, r.app, r.env);
    CountsAlone(h, s, c, r, policy, cleaned);
    assert Add(h, WorldOf(s), r.f, AsCall(r)) == BootstrapAdd(WorldOf(s), AsCall(r), cleaned);
    if found.Err? {
      RefusedEnds(h, s, c, r, p, Alone(c, r, 2), found.error);
    } else if |found.value.recipients| >= 2 {
      RefusedEnds(h, s, c, r, p, Alone(c, r, 2), BootstrapRejected);
    } else {
      AllowedIs(h, s, c, r, p, Alone(c, r, 2), cleaned, Counted(found.value, |s.sys.log|), NOBODY);
    }
  }

  // ---- the gated call -----------------------------------------------------------------------------

  function GatedTo(dir: PendingDir, r: Request, policy: Policy, cleaned: string): CallPc
    requires r.Adding?
  {
    var meta := LoadMeta(dir);
    if meta.Err? then Refused
    else if meta.value.None? then NothingPending(policy, cleaned)
    else if MatchesPending(meta.value.value, r.app, r.env, cleaned).Some? then Refused
    else SomethingPending(policy, cleaned)
  }

  lemma StepGatedAny(h: Digests, s: GSys, c: Cid, r: Request, policy: Policy, cleaned: string)
    requires r.Adding? && Here(s, GExec(h, s, Alone(c, r, 1)), c, r, Gated(policy, cleaned))
    ensures Here(s, GExec(h, s, Alone(c, r, 2)), c, r, GatedTo(s.dir, r, policy, cleaned))
  {
    AloneNext(h, s, c, r, 1);
    var x := GExec(h, s, Alone(c, r, 1));
    assert GStep(h, x, Going(c)) == GoGated(x, c, policy, cleaned, false);
  }

  lemma PrepareRefused(h: Digests, s: GSys, c: Cid, r: Request, policy: Policy, cleaned: string)
    requires c !in s.calls && r.Adding? && AfterPolicy(r, false) == Gated(policy, cleaned)
    requires LoadMeta(s.dir) == Ok(None) && s.sys.lock == FREE && !CanPrepare(s, r)
    ensures Here(s, GExec(h, s, Alone(c, r, 3)), c, r, Refused)
  {
    FirstStep(h, s, c, r);
    StepGatedAny(h, s, c, r, policy, cleaned);
    AloneNext(h, s, c, r, 2);
    var x := GExec(h, s, Alone(c, r, 2));
    assert GStep(h, x, Going(c)) == GoNothing(x, c, policy, cleaned, false);
  }

  lemma PreparePhaseIs(h: Digests, s: GSys, r: Request, policy: Policy, cleaned: string)
    requires r.Adding? && AfterPolicy(r, false) == Gated(policy, cleaned) && LoadMeta(s.dir) == Ok(None)
    ensures var (w, answer) := Add(h, WorldOf(s), r.f, AsCall(r));
      if !CanPrepare(s, r) then w == WorldOf(s) && answer.Err?
      else
        && w == WorldOf(s).(dir := PrepareRun(h, s.dir, Asked(s, r), r.nonce, NoFault).0)
        && answer == Ok(AwaitSignatures(policy.operators, policy.m))
  {
    assert Add(h, WorldOf(s), r.f, AsCall(r)) == PreparePhase(h, WorldOf(s), AsCall(r), cleaned, policy);
  }

  lemma {:induction false} PrepareRefines(h: Digests, s: GSys, c: Cid, r: Request, p: Pid)
    requires Idle(s, c, r, p) && AfterPolicy(r, false).Gated? && LoadMeta(s.dir) == Ok(None)
    ensures Refines(h, s, c, r, p)
  {
    var cleaned, policy := AfterPolicy(r, false).cleaned, AfterPolicy(r, false).p;
    var n, x := |policy.operators| + 1, GExec(h, s, Alone(c, r, 3));
    var (w, answer) := Add(h, WorldOf(s), r.f, AsCall(r));
    GExecJoin(h, s, Alone(c, r, 3), Gos(c, n));
    if CanPrepare(s, r) {
      Opens(h, s, c, r);
      PreparationReplaces(h, x, c, r, Asked(s, r));
    } else {
      PrepareRefused(h, s, c, r, policy, cleaned);
      GosRefused(h, x, c, n);
    }
    PreparedEnds(h, s, x, GExec(h, x, Gos(c, n)), c, r, policy, cleaned);
    RefinesBy(h, s, c, r, p, Alone(c, r, 3) + Gos(c, n), w, answer);
  }

  lemma PreparedEnds(h: Digests, s: GSys, x: GSys, y: GSys, c: Cid, r: Request, policy: Policy, cleaned: string)
    requires r.Adding? && AfterPolicy(r, false) == Gated(policy, cleaned) && LoadMeta(s.dir) == Ok(None)
    requires s.sys.lock == FREE
    requires if CanPrepare(s, r) then
        && OnlyNow(x, y, c, r, Waiting) && Here(s, x, c, r, Preparing(Asked(s, r), 0))
        && y.dir == PrepareRun(h, s.dir, Asked(s, r), r.nonce, NoFault).0
      else y == x && Here(s, x, c, r, Refused)
    ensures var (w, answer) := Add(h, WorldOf(s), r.f, AsCall(r)); Ends(s, y, c, r, w, answer)
  {
    PreparePhaseIs(h, s, r, policy, cleaned);
  }

  lemma ThirdStep(h: Digests, s: GSys, c: Cid, r: Request, policy: Policy, cleaned: string)
    requires Here(s, GExec(h, s, Alone(c, r, 2)), c, r, SomethingPending(policy, cleaned)) && r.Adding?
    requires s.sys.lock == FREE
    ensures var found := Lookup(s.sys.files, r.app, r.env);
      Here(s, GExec(h, s, Alone(c, r, 3)), c, r,
           if found.Err? then Refused else EntryFound(policy, cleaned, found.value, |s.sys.log|))
  {
    var x := GExec(h, s, Alone(c, r, 2));
    AloneNext(h, s, c, r, 2);
    assert GStep(h, x, Going(c)) == GoSomething(x, c, policy, cleaned, false);
  }

  lemma FourthStep(h: Digests, s: GSys, c: Cid, r: Request, policy: Policy, cleaned: string, found: EnvMeta, m: Meta)
    requires Here(s, GExec(h, s, Alone(c, r, 3)), c, r, EntryFound(policy, cleaned, found, |s.sys.log|)) && r.Adding?
    requires LoadMeta(s.dir) == Ok(Some(m))
    requires MetaMatches(m, VerifyRequest(r.app, r.env, cleaned, found.sha, policy)).Some?
    ensures Here(s, GExec(h, s, Alone(c, r, 4)), c, r, Refused)
  {
    var x := GExec(h, s, Alone(c, r, 3));
    AloneNext(h, s, c, r, 3);
    assert GStep(h, x, Going(c)) == GoEntryFound(x, c, x.calls[c].pc, false);
  }

  /** Where it stops then. */
  lemma StopsBeforeListing(h: Digests, s: GSys, c: Cid, r: Request, policy: Policy, cleaned: string)
    requires r.Adding? && Here(s, GExec(h, s, Alone(c, r, 1)), c, r, Gated(policy, cleaned))
    requires s.sys.lock == FREE && LoadMeta(s.dir) != Ok(None) && StopsEarly(s, r, policy, cleaned)
    ensures Here(s, GExec(h, s, Alone(c, r, 4)), c, r, Refused)
  {
    var found, meta := Lookup(s.sys.files, r.app, r.env), LoadMeta(s.dir);
    StepGatedAny(h, s, c, r, policy, cleaned);
    if meta.Err? || MatchesPending(meta.value.value, r.app, r.env, cleaned).Some? {
      StillRefused(h, s, c, r, 2);
      StillRefused(h, s, c, r, 3);
    } else {
      ThirdStep(h, s, c, r, policy, cleaned);
      if found.Err? {
        StillRefused(h, s, c, r, 3);
      } else {
        FourthStep(h, s, c, r, policy, cleaned, found.value, meta.value.value);
      }
    }
  }

  lemma {:induction false} VerifyRefines(h: Digests, s: GSys, c: Cid, r: Request, p: Pid)
    requires Idle(s, c, r, p) && AfterPolicy(r, false).Gated? && LoadMeta(s.dir) != Ok(None)
    ensures Refines(h, s, c, r, p)
  {
    var cleaned, policy := AfterPolicy(r, false).cleaned, AfterPolicy(r, false).p;
    if StopsEarly(s, r, policy, cleaned) {
      FirstStep(h, s, c, r);
      AddIsQuorumAdd(h, s, r, policy, cleaned);
      StoppedRefines(h, s, c, r, p, policy, cleaned);
    } else {
      ListedRefines(h, s, c, r, p, policy, cleaned, Lookup(s.sys.files, r.app, r.env).value, LoadMeta(s.dir).value.value);
    }
  }

  lemma AddIsQuorumAdd(h: Digests, s: GSys, r: Request, policy: Policy, cleaned: string)
    requires r.Adding? && AfterPolicy(r, false) == Gated(policy, cleaned)
    ensures Add(h, WorldOf(s), r.f, AsCall(r)) == QuorumAdd(h, WorldOf(s), AsCall(r), cleaned, policy)
  {
  }

  /** A verification that stops early. */
  lemma {:induction false} StoppedRefines(h: Digests, s: GSys, c: Cid, r: Request, p: Pid, policy: Policy,
                                          cleaned: string)
    requires Idle(s, c, r, p) && LoadMeta(s.dir) != Ok(None) && StopsEarly(s, r, policy, cleaned)
    requires Here(s, GExec(h, s, Alone(c, r, 1)), c, r, Gated(policy, cleaned))
    requires Add(h, WorldOf(s), r.f, AsCall(r)) == QuorumAdd(h, WorldOf(s), AsCall(r), cleaned, policy)
    requires Through(s, c, r, p) == Alone(c, r, 4)
    ensures Refines(h, s, c, r, p)
  {
    StopsBeforeListing(h, s, c, r, policy, cleaned);
    CannotVerify(h, s, r, policy, cleaned);
    RefusedRefines(h, s, c, r, p, Alone(c, r, 4));
  }

  lemma RefusedRefines(h: Digests, s: GSys, c: Cid, r: Request, p: Pid, run: seq<GAction>)
    requires Idle(s, c, r, p) && Here(s, GExec(h, s, run), c, r, Refused) && Through(s, c, r, p) == run
    requires Add(h, WorldOf(s), r.f, AsCall(r)).0 == WorldOf(s) && Add(h, WorldOf(s), r.f, AsCall(r)).1.Err?
    ensures Refines(h, s, c, r, p)
  {
  }

  lemma {:induction false} ListedRefines(h: Digests, s: GSys, c: Cid, r: Request, p: Pid, policy: Policy, cleaned: string,
                                         found: EnvMeta, m: Meta)
    requires Idle(s, c, r, p) && AfterPolicy(r, false) == Gated(policy, cleaned) && LoadMeta(s.dir) != Ok(None)
    requires CanVerify(s, r, policy, cleaned, found, m) && !StopsEarly(s, r, policy, cleaned)
    ensures Refines(h, s, c, r, p)
  {
    var first := Alone(c, r, 6 + |Sorted(s.dir.Keys)|);
    var (w, answer) := Add(h, WorldOf(s), r.f, AsCall(r));
    ListedHere(h, s, c, r, policy, cleaned, found, m);
    VerifyPhaseIs(h, s, r, policy, cleaned, found, m);
    ListedEnds(h, s, c, r, p, first, cleaned, found, m, Collected(h, s.dir, r.who, m, Sorted(s.dir.Keys)), w, answer);
    RefinesBy(h, s, c, r, p, first + Rest(c, p), w, answer);
  }

  lemma {:induction false} ListedHere(h: Digests, s: GSys, c: Cid, r: Request, policy: Policy, cleaned: string,
                                      found: EnvMeta, m: Meta)
    requires c !in s.calls && s.sys.lock == FREE && CanVerify(s, r, policy, cleaned, found, m)
    ensures var out := Collected(h, s.dir, r.who, m, Sorted(s.dir.Keys));
      Here(s, GExec(h, s, Alone(c, r, 6 + |Sorted(s.dir.Keys)|)), c, r,
           if |out| < m.m then Refused else Allowed(cleaned, Approved(m, out, found, |s.sys.log|)))
  {
    var n, out := |Sorted(s.dir.Keys)|, Collected(h, s.dir, r.who, m, Sorted(s.dir.Keys));
    CollectsAlone(h, s, c, r, policy, cleaned, found, m, n);
    AloneNext(h, s, c, r, 5 + n);
    StepDecides(h, s, GExec(h, s, Alone(c, r, 5 + n)), c, r, policy, cleaned, found, m, out);
  }

  /** What the one call does with the operators it counts. */
  ghost predicate Applies(h: Digests, s: GSys, r: Request, cleaned: string, m: Meta, out: seq<Operator>, w: World,
                          answer: Answer)
    requires r.Adding?
  {
    var (applied, done) := ApplyAdd(WorldOf(s), AsCall(r), cleaned, VerifyResult(Thumbs(h, out), Names(out)));
    if |out| < m.m then w == WorldOf(s) && answer.Err?
    else w == (if done.Ok? then applied.(dir := Cleared(s.dir, {})) else applied) && answer == done
  }

  lemma {:induction false} ListedEnds(h: Digests, s: GSys, c: Cid, r: Request, p: Pid, first: seq<GAction>,
                                      cleaned: string, found: EnvMeta, m: Meta, out: seq<Operator>, w: World,
                                      answer: Answer)
    requires Idle(s, c, r, p) && Applies(h, s, r, cleaned, m, out, w, answer)
    requires Here(s, GExec(h, s, first), c, r,
                  if |out| < m.m then Refused else Allowed(cleaned, Approved(m, out, found, |s.sys.log|)))
    ensures Ends(s, GExec(h, s, first + Rest(c, p)), c, r, w, answer)
  {
    if |out| < m.m {
      RefusedEnds(h, s, c, r, p, first, answer.error);
    } else {
      AllowedIs(h, s, c, r, p, first, cleaned, Approved(m, out, found, |s.sys.log|),
                VerifyResult(Thumbs(h, out), Names(out)));
    }
  }

  lemma VerifyPhaseIs(h: Digests, s: GSys, r: Request, policy: Policy, cleaned: string, found: EnvMeta, m: Meta)
    requires CanVerify(s, r, policy, cleaned, found, m) && AfterPolicy(r, false) == Gated(policy, cleaned)
    ensures var (w, answer) := Add(h, WorldOf(s), r.f, AsCall(r));
      Applies(h, s, r, cleaned, m, Collected(h, s.dir, r.who, m, Sorted(s.dir.Keys)), w, answer)
  {
    assert Add(h, WorldOf(s), r.f, AsCall(r)) == VerifyPhase(h, WorldOf(s), AsCall(r), cleaned, policy);
  }

  lemma CannotVerify(h: Digests, s: GSys, r: Request, policy: Policy, cleaned: string)
    requires r.Adding? && LoadMeta(s.dir) != Ok(None) && StopsEarly(s, r, policy, cleaned)
    requires Add(h, WorldOf(s), r.f, AsCall(r)) == QuorumAdd(h, WorldOf(s), AsCall(r), cleaned, policy)
    ensures Add(h, WorldOf(s), r.f, AsCall(r)).0 == WorldOf(s) && Add(h, WorldOf(s), r.f, AsCall(r)).1.Err?
  {
  }

  /** Every addition, whatever the policy file, the pending directory, the store and the arguments:
      its steps, run alone, end with the store, the pending directory and the answer of one call. */
  lemma {:induction false} AddAlone(h: Digests, s: GSys, c: Cid, r: Request, p: Pid)
    requires Idle(s, c, r, p)
    ensures Refines(h, s, c, r, p)
  {
    if AfterPolicy(r, false).Counting? {
      BootstrapRefines(h, s, c, r, p);
    } else if AfterPolicy(r, false).Gated? {
      if LoadMeta(s.dir) == Ok(None) {
        PrepareRefines(h, s, c, r, p);
      } else {
        VerifyRefines(h, s, c, r, p);
      }
    } else {
      PlainRefines(h, s, c, r, p);
    }
  }
}
