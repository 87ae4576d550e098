/** Calls of the gate, one file access at a time, over the store protocol (internal/store/quorum_gate.go,
    quorum_sign.go and internal/quorum).

    Any number of additions and signatures are under way at once. A call takes the shared lock only
    while it looks up its manifest entry; it reads and writes the pending directory without any
    lock, one file a step. The recipient operation itself is a process of the store protocol, whose
    steps interleave with those of all other processes. Any access may fail. */
module GateRuns {
  import opened Strings
  import opened Validate
  import opened Files
  import opened Edits
  import opened Transactions
  import opened Protocol
  import opened Quorum
  import opened QuorumRecords
  import opened Gate
  import Sorting

  type Cid = nat

  /** `nonce` is what the random source returns if the call comes to prepare. `f` is what the call
      finds in the policy file. */
  datatype Request =
    | Adding(f: PolicyFile, app: string, env: string, recipient: string, bootstrap: bool, who: string,
             at: string, nonce: string)
    | Signing(f: PolicyFile, app: string, env: string, recipient: string, who: string)

  /** Why an addition may go ahead. `found` is the manifest entry the call looked at, when the log of
      commits had `at` entries. */
  datatype Ticket =
    | Ungated
    | Counted(found: EnvMeta, at: nat)
    | Approved(m: Meta, ops: seq<Operator>, found: EnvMeta, at: nat)

  datatype CallPc =
    | Begun
    | Counting(cleaned: string)
    | Gated(p: Policy, cleaned: string)
    | NothingPending(p: Policy, cleaned: string)
    | Preparing(q: PrepareRequest, done: nat)
    | SomethingPending(p: Policy, cleaned: string)
    | EntryFound(p: Policy, cleaned: string, found: EnvMeta, at: nat)
    | MetaChecked(p: Policy, cleaned: string, found: EnvMeta, at: nat, m: Meta)
    | Collecting(p: Policy, cleaned: string, found: EnvMeta, at: nat, m: Meta, names: seq<string>, done: nat,
                 out: seq<Operator>)
    | Allowed(cleaned: string, t: Ticket)
    | Applying(pid: Pid, cleaned: string, t: Ticket)
    | Clearing(cleaned: string, t: Ticket)
    | SignGated(cleaned: string, operator: string)
    | SignLoaded(operator: string, m: Meta)
    | SignOpened(operator: string, m: Meta, plain: string)
    | Waiting
    | Granted(cleaned: string, t: Ticket)
    | Signed
    | Refused

  datatype Call = Call(request: Request, pc: CallPc)

  /** `acts` is auxiliary: who asked for what, and who signed what. */
  datatype GSys = GSys(
    sys: Sys, dir: PendingDir, calls: map<Cid, Call>, acts: Acts)

  /** `fail` says that the access of this step fails; `torn` whether a failing write leaves a torn
      file; `pid` names the process of a recipient operation; `left` is what a removal of the pending
      directory does not reach. Files of the directory may also get lost by hand. */
  datatype GAction =
    | StoreStep(a: Action)
    | Begin(c: Cid, r: Request)
    | Go(c: Cid, fail: bool, torn: bool, pid: Pid, left: set<string>)
    | Lose(left: set<string>)

  function To(s: GSys, c: Cid, pc: CallPc): GSys
    requires c in s.calls
  {
    s.(calls := s.calls[c := s.calls[c].(pc := pc)])
  }

  /** A step of a call moves that call and leaves the others alone. */
  predicate OnlyCall(s: GSys, t: GSys, c: Cid) {
    c in s.calls && c in t.calls && t.calls == s.calls[c := s.calls[c].(pc := t.calls[c].pc)]
  }

  function AddingJob(r: Request, cleaned: string): Job
    requires r.Adding?
  {
    Mutate(r.app, r.env, r.who, AddRecipient(cleaned), r.at)
  }

  // ---- the steps of an addition -------------------------------------------------------------------

  /** The argument checks and the policy file. */
  function AfterPolicy(r: Request, fail: bool): CallPc {
    match CleanRecipient(r.recipient)
    case None => Refused
    case Some(cleaned) =>
      match LoadPolicy(r.f)
      case Err(_) => Refused
      case Ok(None) => if r.Adding? && !fail then Allowed(cleaned, Ungated) else Refused
      case Ok(Some(p)) =>
        if fail then Refused
        else if r.Adding? then
          if !OperatorsClean(p.operators) then Refused
          else if r.bootstrap then Counting(cleaned)
          else Gated(p, cleaned)
        else if r.who == "" then Refused
        else
          match FindByRecipient(p.operators, r.who)
          case None => Refused
          case Some(op) => SignGated(cleaned, op.recipient)
  }

  function GoGated(s: GSys, c: Cid, p: Policy, cleaned: string, fail: bool): (t: GSys)
    requires c in s.calls
    ensures OnlyCall(s, t, c)
    ensures t.sys == s.sys
  {
    var r, meta := s.calls[c].request, LoadMeta(s.dir);
    To(s, c,
       if fail || meta.Err? then Refused
       else if meta.value.None? then NothingPending(p, cleaned)
       else if MatchesPending(meta.value.value, r.app, r.env, cleaned).Some? then Refused
       else SomethingPending(p, cleaned))
  }

  /** Find of bootstrapAdd, and its count. */
  function GoCounting(s: GSys, c: Cid, cleaned: string, fail: bool): (t: GSys)
    requires c in s.calls
    ensures OnlyCall(s, t, c)
    ensures t.sys == s.sys
  {
    var r := s.calls[c].request;
    var found := Lookup(s.sys.files, r.app, r.env);
    if s.sys.lock.exclusive.Some? then s
    else
      To(s, c, if fail || found.Err? || |found.value.recipients| >= 2 then Refused
               else Allowed(cleaned, Counted(found.value, |s.sys.log|)))
  }

  /** Find of preparePhase, the checks of PrepareAdd and the nonce. */
  function GoNothing(s: GSys, c: Cid, p: Policy, cleaned: string, fail: bool): (t: GSys)
    requires c in s.calls
    ensures OnlyCall(s, t, c)
    ensures t.sys == s.sys
  {
    var r := s.calls[c].request;
    var found := Lookup(s.sys.files, r.app, r.env);
    if s.sys.lock.exclusive.Some? || r.Signing? then s
    else if fail || found.Err? || r.who == "" then To(s, c, Refused)
    else
      var q := PrepareRequest(r.app, r.env, cleaned, found.value.sha, p, r.who);
      if PrepareCheck(q).Some? then To(s, c, Refused)
      else To(s, c, Preparing(q, 0)).(acts := s.acts.(prepared := s.acts.prepared + {Preparation(q, r.nonce)}))
  }

  function MetaOfCall(s: GSys, c: Cid, q: PrepareRequest): Meta
    requires c in s.calls
  {
    MetaOf(q, if s.calls[c].request.Adding? then s.calls[c].request.nonce else "")
  }

  /** One challenge, or at last the metadata. */
  function GoPreparing(h: Digests, s: GSys, c: Cid, q: PrepareRequest, done: nat, fail: bool, torn: bool): (t: GSys)
    requires c in s.calls
    ensures OnlyCall(s, t, c)
    ensures t.sys == s.sys
  {
    var ops, m := q.policy.operators, MetaOfCall(s, c, q);
    if done < |ops| then
      var name := ChallengeName(h.thumb(ops[done].recipient));
      if fail then To(s, c, Refused).(dir := TornAt(s.dir, name, torn))
      else To(s, c, Preparing(q, done + 1)).(dir := s.dir[name := Age([ops[done].recipient], MessageOf(h, m))])
    else if fail then To(s, c, Refused)
    else To(s, c, Waiting).(dir := s.dir[META_NAME := MetaJson(m)])
  }

  /** Find of verifyPhase. */
  function GoSomething(s: GSys, c: Cid, p: Policy, cleaned: string, fail: bool): (t: GSys)
    requires c in s.calls
    ensures OnlyCall(s, t, c)
    ensures t.sys == s.sys
  {
    var r := s.calls[c].request;
    var found := Lookup(s.sys.files, r.app, r.env);
    if s.sys.lock.exclusive.Some? then s
    else To(s, c, if fail || found.Err? then Refused else EntryFound(p, cleaned, found.value, |s.sys.log|))
  }

  /** Verify loads the metadata a second time and compares it with the entry found. */
  function GoEntryFound(s: GSys, c: Cid, pc: CallPc, fail: bool): (t: GSys)
    requires c in s.calls && pc.EntryFound?
    ensures OnlyCall(s, t, c)
    ensures t.sys == s.sys
  {
    var r, meta := s.calls[c].request, LoadMeta(s.dir);
    To(s, c,
       if fail || meta.Err? || meta.value.None? then Refused
       else if MetaMatches(meta.value.value, VerifyRequest(r.app, r.env, pc.cleaned, pc.found.sha, pc.p)).Some?
       then Refused
       else MetaChecked(pc.p, pc.cleaned, pc.found, pc.at, meta.value.value))
  }

  /** The directory listing. */
  function GoMetaChecked(s: GSys, c: Cid, pc: CallPc, fail: bool): (t: GSys)
    requires c in s.calls && pc.MetaChecked?
    ensures OnlyCall(s, t, c)
    ensures t.sys == s.sys
  {
    To(s, c, if fail then Refused
             else Collecting(pc.p, pc.cleaned, pc.found, pc.at, pc.m, Sorting.Sorted(s.dir.Keys), 0, []))
  }

  /** One entry of the listing; a file that cannot be decrypted is passed over. After the last one
      the count decides. */
  function GoCollecting(h: Digests, s: GSys, c: Cid, pc: CallPc, fail: bool): (t: GSys)
    requires c in s.calls && pc.Collecting?
    ensures OnlyCall(s, t, c)
    ensures t.sys == s.sys
  {
    if pc.done < |pc.names| then
      var out := if fail then pc.out
                 else CollectOne(h, s.dir, s.calls[c].request.who, pc.m, pc.out, pc.names[pc.done]);
      To(s, c, pc.(done := pc.done + 1, out := out))
    else
      To(s, c, if |pc.out| < pc.m.m then Refused
               else Allowed(pc.cleaned, Approved(pc.m, pc.out, pc.found, pc.at)))
  }

  /** applyAdd starts the recipient operation. */
  function GoAllowed(s: GSys, c: Cid, cleaned: string, t: Ticket, fail: bool, pid: Pid): (u: GSys)
    requires c in s.calls
    ensures OnlyCall(s, u, c)
  {
    var r := s.calls[c].request;
    if r.Signing? || pid in s.sys.procs then s
    else if fail then To(s, c, Refused)
    else To(s, c, Applying(pid, cleaned, t)).(sys := Apply(s.sys, Spawn(pid, AddingJob(r, cleaned))))
  }

  /** The call goes on when its operation has ended. */
  function GoApplying(s: GSys, c: Cid, pid: Pid, cleaned: string, t: Ticket): (u: GSys)
    requires c in s.calls
    ensures OnlyCall(s, u, c)
    ensures u.sys == s.sys
  {
    if pid !in s.sys.procs then s
    else if s.sys.procs[pid].pc.CommitDone? then
      To(s, c, if t.Approved? then Clearing(cleaned, t) else Granted(cleaned, t))
    else if s.sys.procs[pid].pc.Failed? then To(s, c, Refused)
    else s
  }

  function GoClearing(s: GSys, c: Cid, cleaned: string, t: Ticket, left: set<string>): (u: GSys)
    requires c in s.calls
    ensures OnlyCall(s, u, c)
    ensures u.sys == s.sys
  {
    To(s, c, Granted(cleaned, t)).(dir := Cleared(s.dir, left))
  }

  // ---- the steps of a signature -------------------------------------------------------------------

  function GoSignGated(h: Digests, s: GSys, c: Cid, cleaned: string, operator: string, fail: bool): (t: GSys)
    requires c in s.calls
    ensures OnlyCall(s, t, c)
    ensures t.sys == s.sys
  {
    var r, meta := s.calls[c].request, LoadMeta(s.dir);
    To(s, c,
       if fail || operator == "" || meta.Err? || meta.value.None? then Refused
       else if SignMatches(meta.value.value, SignRequest(r.app, r.env, cleaned, operator)).Some? then Refused
       else if OperatorByThumb(h, meta.value.value.operators, h.thumb(operator)).None? then Refused
       else SignLoaded(operator, meta.value.value))
  }

  /** The challenge is decrypted with the caller's identity and compared with the metadata. */
  function GoSignLoaded(h: Digests, s: GSys, c: Cid, operator: string, m: Meta, fail: bool): (t: GSys)
    requires c in s.calls
    ensures OnlyCall(s, t, c)
    ensures t.sys == s.sys
  {
    var plain := Quorum.Decrypted(s.dir, ChallengeName(h.thumb(operator)), s.calls[c].request.who);
    To(s, c, if fail || plain.None? || !Accepted(h, plain.value, m) then Refused
             else SignOpened(operator, m, plain.value))
  }

  function GoSignOpened(h: Digests, s: GSys, c: Cid, pc: CallPc, fail: bool, torn: bool): (t: GSys)
    requires c in s.calls && pc.SignOpened?
    ensures OnlyCall(s, t, c)
    ensures t.sys == s.sys
  {
    var name := SigName(h.thumb(pc.operator));
    if fail then To(s, c, Refused).(dir := TornAt(s.dir, name, torn))
    else
      To(s, c, Signed)
        .(dir := s.dir[name := Age([pc.m.verifier], pc.plain)],
          acts := s.acts.(signed := s.acts.signed + {Signature(pc.m, pc.operator, s.calls[c].request.who)}))
  }

  // ---- runs ---------------------------------------------------------------------------------------

  /** The steps that touch the pending directory. */
  predicate WritesPending(pc: CallPc) {
    pc.Preparing? || pc.Clearing? || pc.SignOpened?
  }

  function GoCall(h: Digests, s: GSys, c: Cid, fail: bool, torn: bool, pid: Pid, left: set<string>): (t: GSys)
    requires c in s.calls
    ensures OnlyCall(s, t, c)
    ensures !s.calls[c].pc.Allowed? ==> t.sys == s.sys
    ensures !WritesPending(s.calls[c].pc) ==> t.dir == s.dir
    ensures Within(s.acts, t.acts)
  {
    var pc := s.calls[c].pc;
    match pc
    case Begun => To(s, c, AfterPolicy(s.calls[c].request, fail))
    case Counting(cleaned) => GoCounting(s, c, cleaned, fail)
    case Gated(p, cleaned) => GoGated(s, c, p, cleaned, fail)
    case NothingPending(p, cleaned) => GoNothing(s, c, p, cleaned, fail)
    case Preparing(q, done) => GoPreparing(h, s, c, q, done, fail, torn)
    case SomethingPending(p, cleaned) => GoSomething(s, c, p, cleaned, fail)
    case EntryFound(_, _, _, _) => GoEntryFound(s, c, pc, fail)
    case MetaChecked(_, _, _, _, _) => GoMetaChecked(s, c, pc, fail)
    case Collecting(_, _, _, _, _, _, _, _) => GoCollecting(h, s, c, pc, fail)
    case Allowed(cleaned, t) => GoAllowed(s, c, cleaned, t, fail, pid)
    case Applying(p, cleaned, t) => GoApplying(s, c, p, cleaned, t)
    case Clearing(cleaned, t) => GoClearing(s, c, cleaned, t, left)
    case SignGated(cleaned, operator) => GoSignGated(h, s, c, cleaned, operator, fail)
    case SignLoaded(operator, m) => GoSignLoaded(h, s, c, operator, m, fail)
    case SignOpened(_, _, _) => GoSignOpened(h, s, c, pc, fail, torn)
    case _ => s
  }

  function GStep(h: Digests, s: GSys, a: GAction): GSys {
    match a
    case StoreStep(b) => s.(sys := Apply(s.sys, b))
    case Begin(c, r) => if c in s.calls then s else s.(calls := s.calls[c := Call(r, Begun)])
    case Go(c, fail, torn, pid, left) => if c in s.calls then GoCall(h, s, c, fail, torn, pid, left) else s
    case Lose(left) => s.(dir := Cleared(s.dir, left))
  }

  function GExec(h: Digests, s: GSys, run: seq<GAction>): GSys {
    if run == [] then s else GStep(h, GExec(h, s, run[..|run| - 1]), run[|run| - 1])
  }

  lemma GExecSnoc(h: Digests, s: GSys, run: seq<GAction>, a: GAction)
    ensures GExec(h, s, run + [a]) == GStep(h, GExec(h, s, run), a)
  {
    assert (run + [a])[..|run + [a]| - 1] == run;
  }

  lemma GExecOne(h: Digests, s: GSys, a: GAction)
    ensures GExec(h, s, [a]) == GStep(h, s, a)
  {
    GExecSnoc(h, s, [], a);
    assert [] + [a] == [a];
  }

  lemma {:induction false} GExecJoin(h: Digests, s: GSys, run: seq<GAction>, more: seq<GAction>)
    ensures GExec(h, s, run + more) == GExec(h, GExec(h, s, run), more)
  {
    if more == [] {
      assert run + more == run;
    } else {
      var n := |more| - 1;
      assert (run + more)[..|run + more| - 1] == run + more[..n];
      GExecJoin(h, s, run, more[..n]);
    }
  }

  lemma GExecPrev(h: Digests, s: GSys, run: seq<GAction>, more: seq<GAction>)
    requires more != []
    ensures GExec(h, s, run + more)
         == GStep(h, GExec(h, s, run + more[..|more| - 1]), more[|more| - 1])
  {
    assert (run + more)[..|run + more| - 1] == run + more[..|more| - 1];
  }

  predicate GStart(s: GSys) {
    Start(s.sys) && s.dir == map[] && s.calls == map[] && s.acts == Acts({}, {})
  }

  // ---- fresh nonces -------------------------------------------------------------------------------

  predicate Draws(s: GSys, a: GAction) {
    a.Go? && a.c in s.calls && s.calls[a.c].pc.NothingPending? && s.calls[a.c].request.Adding?
  }

  /** The random source returns a nonce that no earlier preparation used. */
  predicate FreshNonce(s: GSys, a: GAction) {
    Draws(s, a) ==>
      IsNonce(s.calls[a.c].request.nonce) && forall e :: e in s.acts.prepared ==> e.nonce != s.calls[a.c].request.nonce
  }

  ghost predicate FreshRun(h: Digests, s: GSys, run: seq<GAction>) {
    forall i :: 0 <= i < |run| ==> FreshNonce(GExec(h, s, run[..i]), run[i])
  }

  // ---- the store below ----------------------------------------------------------------------------

  /** The step of the store protocol that an action makes, if any. */
  function StoreActions(s: GSys, a: GAction): seq<Action> {
    match a
    case StoreStep(b) => [b]
    case Go(c, fail, _, pid, _) =>
      if c in s.calls && s.calls[c].pc.Allowed? && s.calls[c].request.Adding? && pid !in s.sys.procs && !fail
      then [Spawn(pid, AddingJob(s.calls[c].request, s.calls[c].pc.cleaned))]
      else []
    case _ => []
  }

  function StoreRun(h: Digests, s: GSys, run: seq<GAction>): seq<Action> {
    if run == [] then []
    else StoreRun(h, s, run[..|run| - 1]) + StoreActions(GExec(h, s, run[..|run| - 1]), run[|run| - 1])
  }

  lemma StoreStepIs(h: Digests, s: GSys, a: GAction)
    ensures GStep(h, s, a).sys == if StoreActions(s, a) == [] then s.sys else Apply(s.sys, StoreActions(s, a)[0])
  {
  }

  /** The store underneath runs the store protocol: everything proved of its runs holds here. */
  lemma {:induction false} StoreProjection(h: Digests, s: GSys, run: seq<GAction>)
    ensures GExec(h, s, run).sys == Exec(s.sys, StoreRun(h, s, run))
  {
    if run != [] {
      var before, last := run[..|run| - 1], run[|run| - 1];
      StoreProjection(h, s, before);
      StoreStepIs(h, GExec(h, s, before), last);
      var acts := StoreActions(GExec(h, s, before), last);
      if acts == [] {
        assert StoreRun(h, s, before) + [] == StoreRun(h, s, before);
      } else {
        var all := StoreRun(h, s, before) + acts;
        assert all[..|all| - 1] == StoreRun(h, s, before) && all[|all| - 1] == acts[0];
      }
    }
  }
}
