/** The quorum gate in front of recipient additions (internal/store/quorum_gate.go and
    quorum_sign.go): what one call does to the store and to the pending directory. */
module Gate {
  import opened Strings
  import opened Validate
  import opened Files
  import opened Edits
  import opened Transactions
  import opened Quorum
  import Store

  /** recipients.signed.toml: absent, unreadable or not parseable, or parsed. */
  datatype PolicyFile = NoPolicy | BadPolicy | Given(policy: Policy)

  datatype GateError =
    | StoreError(e: Error) | PendingError(q: QError)
    | PolicyRejected | BadOperator | NoIdentity | BootstrapRejected | NotListed

  datatype AddOutcome = Added(signed: VerifyResult) | AwaitSignatures(operators: seq<Operator>, m: int)

  type Answer = Result<AddOutcome, GateError>

  /** One call of AddRecipientV2. `who` is the caller's own recipient, empty when no identity is
      configured; `nonce` is what the random source returns; the last three fields say which
      writes fail. */
  datatype AddRequest = AddRequest(
    app: string, env: string, recipient: string, bootstrap: bool, who: string, at: string, nonce: string,
    writes: Faults, prepare: PrepareFault, left: set<string>)

  datatype World = World(disk: Disk, dir: PendingDir)

  const NOBODY := VerifyResult([], [])

  function LoadPolicy(p: PolicyFile): Result<Option<Policy>, GateError> {
    match p
    case NoPolicy => Ok(None)
    case BadPolicy => Err(PolicyRejected)
    case Given(policy) => if ValidPolicy(policy) then Ok(Some(policy)) else Err(PolicyRejected)
  }

  predicate OperatorsClean(ops: seq<Operator>) {
    forall i :: 0 <= i < |ops| ==> ValidRecipient(ops[i].recipient)
  }

  function Lookup(files: FileMap, app: string, env: string): Result<EnvMeta, GateError> {
    if !ValidName(app) || !ValidName(env) then Err(StoreError(BadName))
    else
      match FindEntry(files, app, env)
      case Err(e) => Err(StoreError(e))
      case Ok(meta) => Ok(meta)
  }

  function AddJob(q: AddRequest, cleaned: string): Job {
    Mutate(q.app, q.env, q.who, AddRecipient(cleaned), q.at)
  }

  /** applyAdd. */
  function ApplyAdd(w: World, q: AddRequest, cleaned: string, signed: VerifyResult): (World, Answer) {
    var r := RunJob(w.disk, AddJob(q, cleaned), q.writes);
    (w.(disk := r.disk), if r.error.Some? then Err(StoreError(r.error.value)) else Ok(Added(signed)))
  }

  function BootstrapAdd(w: World, q: AddRequest, cleaned: string): (World, Answer) {
    match Lookup(w.disk.files, q.app, q.env)
    case Err(e) => (w, Err(e))
    case Ok(meta) => if |meta.recipients| >= 2 then (w, Err(BootstrapRejected)) else ApplyAdd(w, q, cleaned, NOBODY)
  }

  function PrepareFor(q: AddRequest, cleaned: string, meta: EnvMeta, p: Policy): PrepareRequest {
    PrepareRequest(q.app, q.env, cleaned, meta.sha, p, q.who)
  }

  function PreparePhase(h: Digests, w: World, q: AddRequest, cleaned: string, p: Policy): (World, Answer) {
    match Lookup(w.disk.files, q.app, q.env)
    case Err(e) => (w, Err(e))
    case Ok(meta) =>
      if q.who == "" then (w, Err(NoIdentity))
      else
        var (dir, e) := PrepareRun(h, w.dir, PrepareFor(q, cleaned, meta, p), q.nonce, q.prepare);
        (w.(dir := dir), if e.Some? then Err(PendingError(e.value)) else Ok(AwaitSignatures(p.operators, p.m)))
  }

  function VerifyFor(q: AddRequest, cleaned: string, meta: EnvMeta, p: Policy): VerifyRequest {
    VerifyRequest(q.app, q.env, cleaned, meta.sha, p)
  }

  function VerifyPhase(h: Digests, w: World, q: AddRequest, cleaned: string, p: Policy): (World, Answer) {
    match Lookup(w.disk.files, q.app, q.env)
    case Err(e) => (w, Err(e))
    case Ok(meta) =>
      match Verified(h, w.dir, q.who, VerifyFor(q, cleaned, meta, p))
      case Err(e) => (w, Err(PendingError(e)))
      case Ok(signed) =>
        var (after, answer) := ApplyAdd(w, q, cleaned, signed);
        (if answer.Ok? then after.(dir := Cleared(w.dir, q.left)) else after, answer)
  }

  function MatchesPending(m: Meta, app: string, env: string, cleaned: string): Option<QError> {
    if m.newRecipient != cleaned then Some(OtherRecipient)
    else if m.app != app || m.env != env then Some(OtherNamespace)
    else None
  }

  function QuorumAdd(h: Digests, w: World, q: AddRequest, cleaned: string, p: Policy): (World, Answer) {
    match LoadMeta(w.dir)
    case Err(e) => (w, Err(PendingError(e)))
    case Ok(None) => PreparePhase(h, w, q, cleaned, p)
    case Ok(Some(m)) =>
      match MatchesPending(m, q.app, q.env, cleaned)
      case Some(e) => (w, Err(PendingError(e)))
      case None => VerifyPhase(h, w, q, cleaned, p)
  }

  /** One call of AddRecipientV2 under the policy file `f`. */
  function Add(h: Digests, w: World, f: PolicyFile, q: AddRequest): (World, Answer) {
    match CleanRecipient(q.recipient)
    case None => (w, Err(StoreError(BadRecipient)))
    case Some(cleaned) =>
      match LoadPolicy(f)
      case Err(e) => (w, Err(e))
      case Ok(None) => ApplyAdd(w, q, cleaned, NOBODY)
      case Ok(Some(p)) =>
        if !OperatorsClean(p.operators) then (w, Err(BadOperator))
        else if q.bootstrap then BootstrapAdd(w, q, cleaned)
        else QuorumAdd(h, w, q, cleaned, p)
  }

  /** One call of SignAddRecipient by the owner of `who`. */
  function SignBy(h: Digests, dir: PendingDir, f: PolicyFile, app: string, env: string, recipient: string, who: string,
                  fault: SignFault): (PendingDir, Option<GateError>)
  {
    match CleanRecipient(recipient)
    case None => (dir, Some(StoreError(BadRecipient)))
    case Some(cleaned) =>
      match LoadPolicy(f)
      case Err(e) => (dir, Some(e))
      case Ok(None) => (dir, Some(PolicyRejected))
      case Ok(Some(p)) =>
        if who == "" then (dir, Some(NoIdentity))
        else
          match FindByRecipient(p.operators, who)
          case None => (dir, Some(NotListed))
          case Some(op) =>
            var (after, e) := SignRun(h, dir, SignRequest(app, env, cleaned, op.recipient), who, fault);
            (after, if e.Some? then Some(PendingError(e.value)) else None)
  }

  // ---- the gate as an object ------------------------------------------------------------------

  class Gate {
    const store: Store.Store
    const pending: Pending

    ghost function State(): World
      reads store, pending
    {
      World(store.State(), pending.files)
    }

    constructor (store: Store.Store, pending: Pending)
      ensures this.store == store && this.pending == pending
    {
      this.store := store;
      this.pending := pending;
    }

    method Find(app: string, env: string) returns (r: Result<EnvMeta, GateError>)
      ensures r == Lookup(store.files, app, env)
    {
      var meta := store.Find(app, env);
      return if meta.Err? then Err(StoreError(meta.error)) else Ok(meta.value);
    }

    method ApplyTo(q: AddRequest, cleaned: string, signed: VerifyResult) returns (r: Answer)
      modifies store
      ensures (State(), r) == ApplyAdd(old(State()), q, cleaned, signed)
    {
      var e, _ := store.Rewrite(q.app, q.env, q.who, AddRecipient(cleaned), q.at, q.writes);
      return if e.Some? then Err(StoreError(e.value)) else Ok(Added(signed));
    }

    method Bootstrap(q: AddRequest, cleaned: string) returns (r: Answer)
      modifies store
      ensures (State(), r) == BootstrapAdd(old(State()), q, cleaned)
    {
      var meta := Find(q.app, q.env);
      if meta.Err? {
        return Err(meta.error);
      }
      if |meta.value.recipients| >= 2 {
        return Err(BootstrapRejected);
      }
      r := ApplyTo(q, cleaned, NOBODY);
    }

    method Prepare(h: Digests, q: AddRequest, cleaned: string, p: Policy) returns (r: Answer)
      modifies pending
      ensures (State(), r) == PreparePhase(h, old(State()), q, cleaned, p)
    {
      var meta := Find(q.app, q.env);
      if meta.Err? {
        return Err(meta.error);
      }
      if q.who == "" {
        return Err(NoIdentity);
      }
      var e := pending.PrepareAdd(h, PrepareFor(q, cleaned, meta.value, p), q.nonce, q.prepare);
      return if e.Some? then Err(PendingError(e.value)) else Ok(AwaitSignatures(p.operators, p.m));
    }

    /** A failing ClearPending is only reported. */
    method Verify(h: Digests, q: AddRequest, cleaned: string, p: Policy) returns (r: Answer)
      modifies store, pending
      ensures (State(), r) == VerifyPhase(h, old(State()), q, cleaned, p)
    {
      var meta := Find(q.app, q.env);
      if meta.Err? {
        return Err(meta.error);
      }
      var signed := pending.Verify(h, q.who, VerifyFor(q, cleaned, meta.value, p));
      if signed.Err? {
        return Err(PendingError(signed.error));
      }
      r := ApplyTo(q, cleaned, signed.value);
      if r.Ok? {
        var _ := pending.Clear(q.left);
      }
    }

    method AddRecipientV2(h: Digests, f: PolicyFile, q: AddRequest) returns (r: Answer)
      modifies store, pending
      ensures (State(), r) == Add(h, old(State()), f, q)
    {
      var cleaned := CleanRecipient(q.recipient);
      if cleaned.None? {
        return Err(StoreError(BadRecipient));
      }
      var policy := LoadPolicy(f);
      if policy.Err? {
        return Err(policy.error);
      }
      if policy.value.None? {
        r := ApplyTo(q, cleaned.value, NOBODY);
        return;
      }
      var p := policy.value.value;
      var clean := CheckOperators(p.operators);
      if !clean {
        return Err(BadOperator);
      }
      if q.bootstrap {
        r := Bootstrap(q, cleaned.value);
        return;
      }
      var meta := LoadMeta(pending.files);
      if meta.Err? {
        return Err(PendingError(meta.error));
      }
      if meta.value.None? {
        r := Prepare(h, q, cleaned.value, p);
        return;
      }
      var other := MatchesPending(meta.value.value, q.app, q.env, cleaned.value);
      if other.Some? {
        return Err(PendingError(other.value));
      }
      r := Verify(h, q, cleaned.value, p);
    }
  }

  method CheckOperators(ops: seq<Operator>) returns (clean: bool)
    ensures clean <==> OperatorsClean(ops)
  {
    for i := 0 to |ops|
      invariant forall j :: 0 <= j < i ==> ValidRecipient(ops[j].recipient)
    {
      if CleanRecipient(ops[i].recipient).None? {
        return false;
      }
    }
    return true;
  }
}
