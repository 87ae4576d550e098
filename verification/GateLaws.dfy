/** What one call of AddRecipientV2 decides and changes when it runs alone. */
module GateLaws {
  import opened Strings
  import opened Validate
  import opened Files
  import opened Edits
  import opened Transactions
  import opened StoreLaws
  import opened Quorum
  import opened QuorumLaws
  import opened Gate

  /** The PrepareAdd an addition leads to, when nothing is pending. */
  function Preparing(w: World, f: PolicyFile, q: AddRequest): Option<PrepareRequest> {
    var cleaned, policy, meta := CleanRecipient(q.recipient), LoadPolicy(f), Lookup(w.disk.files, q.app, q.env);
    if cleaned.None? || policy.Err? || policy.value.None? || !OperatorsClean(policy.value.value.operators)
       || q.bootstrap || LoadMeta(w.dir) != Ok(None) || meta.Err? || q.who == "" then None
    else Some(PrepareFor(q, cleaned.value, meta.value, policy.value.value))
  }

  /** An addition changes the pending directory in two ways only: by preparing, when nothing is
      pending, and by clearing after a successful verification. */
  lemma AddDir(h: Digests, w: World, f: PolicyFile, q: AddRequest)
    ensures var ask := Preparing(w, f, q);
      var dir := Add(h, w, f, q).0.dir;
      if ask.Some? then dir == PrepareRun(h, w.dir, ask.value, q.nonce, q.prepare).0
      else dir == w.dir || dir == Cleared(w.dir, q.left)
  {
    if Preparing(w, f, q).Some? {
      assert Add(h, w, f, q) == PreparePhase(h, w, q, CleanRecipient(q.recipient).value, f.policy);
    }
  }

  /** Under a policy, a non-bootstrap addition reaches the store only behind a successful Verify
      of the pending metadata against the manifest entry. */
  lemma AddBehindVerify(h: Digests, w: World, f: PolicyFile, q: AddRequest)
    requires !q.bootstrap && f.Given?
    requires Add(h, w, f, q).0.disk != w.disk || (Add(h, w, f, q).1.Ok? && Add(h, w, f, q).1.value.Added?)
    ensures CleanRecipient(q.recipient).Some? && Lookup(w.disk.files, q.app, q.env).Ok?
    ensures LoadMeta(w.dir).Ok? && LoadMeta(w.dir).value.Some?
    ensures Verified(h, w.dir, q.who, VerifyFor(q, CleanRecipient(q.recipient).value,
                                                Lookup(w.disk.files, q.app, q.env).value, f.policy)).Ok?
  {
  }

  /** With fresh pending metadata for this very addition, the gate opens exactly when at least M
      distinct operators have signed and the store can commit; otherwise, short of signatures,
      nothing changes. */
  lemma {:induction false} GateDecides(h: Digests, w: World, f: PolicyFile, q: AddRequest, m: Meta, cleaned: string)
    requires CleanRecipient(q.recipient) == Some(cleaned) && !q.bootstrap
    requires f.Given? && ValidPolicy(f.policy) && OperatorsClean(f.policy.operators) && m.m == f.policy.m
    requires LoadMeta(w.dir) == Ok(Some(m)) && MatchesPending(m, q.app, q.env, cleaned).None?
    requires Lookup(w.disk.files, q.app, q.env).Ok? && Lookup(w.disk.files, q.app, q.env).value.sha == m.sha
    requires ValidPolicy(Policy(m.m, m.operators)) && DistinctThumbs(h, m.operators)
    ensures Add(h, w, f, q).1.Ok? <==>
      |Signers(h, w.dir, q.who, m)| >= m.m && RunJob(w.disk, AddJob(q, cleaned), q.writes).error.None?
    ensures Add(h, w, f, q).1.Ok? ==> Add(h, w, f, q).1.value.Added?
    ensures |Signers(h, w.dir, q.who, m)| < m.m ==> Add(h, w, f, q).0 == w
    ensures |Signers(h, w.dir, q.who, m)| >= m.m ==>
      var r := RunJob(w.disk, AddJob(q, cleaned), q.writes);
      Add(h, w, f, q).0 == World(r.disk, if r.error.None? then Cleared(w.dir, q.left) else w.dir)
  {
    var v := VerifyFor(q, cleaned, Lookup(w.disk.files, q.app, q.env).value, f.policy);
    VerifyDecides(h, w.dir, q.who, v, m);
    assert Add(h, w, f, q) == VerifyPhase(h, w, q, cleaned, f.policy);
  }

  /** Whatever path an addition takes, it is the store's own operation that adds. */
  lemma AddedByOperation(h: Digests, w: World, f: PolicyFile, q: AddRequest)
    requires Add(h, w, f, q).1.Ok? && Add(h, w, f, q).1.value.Added?
    ensures CleanRecipient(q.recipient).Some?
    ensures var r := RunJob(w.disk, Mutate(q.app, q.env, q.who, Op.AddRecipient(CleanRecipient(q.recipient).value), q.at),
                            q.writes);
      && r.error.None? && Add(h, w, f, q).0.disk == r.disk
      && Add(h, w, f, q).0.dir == if f.Given? && !q.bootstrap then Cleared(w.dir, q.left) else w.dir
  {
  }

  /** After an addition, gated, bootstrap or without a policy, the namespace's recipients are the old
      ones and the new one, in every other namespace nothing has changed, and what is left of the
      pending directory is what the removal did not get to. */
  lemma {:induction false} AddedExactly(h: Digests, w: World, f: PolicyFile, q: AddRequest, app: string, env: string)
    requires Sound(w.disk.files) && Add(h, w, f, q).1.Ok? && Add(h, w, f, q).1.value.Added?
    requires ValidName(app) && ValidName(env)
    ensures var after, cleaned := Add(h, w, f, q).0, CleanRecipient(q.recipient).value;
      var was, now := FindEntry(w.disk.files, app, env), FindEntry(after.disk.files, app, env);
      && after.dir == (if f.Given? && !q.bootstrap then Cleared(w.dir, q.left) else w.dir)
      && (app == q.app && env == q.env ==>
            was.Ok? && now.Ok? && now.value.recipients == AddTo(was.value.recipients, cleaned)
            && now.value.version == was.value.version + 1)
      && (app != q.app || env != q.env ==>
            now == was && Snapshot(after.disk.files, BundlePath(app, env)) == Snapshot(w.disk.files, BundlePath(app, env)))
  {
    AddedByOperation(h, w, f, q);
    var cleaned := CleanRecipient(q.recipient).value;
    CleanedIsCleaned(q.recipient);
    CommitFrameOrSelf(w.disk, AddJob(q, cleaned), q.writes, cleaned, app, env);
  }

  lemma {:induction false} CommitFrameOrSelf(d: Disk, job: Job, f: Faults, cleaned: string, app: string, env: string)
    requires Sound(d.files) && job.Mutate? && job.op == Op.AddRecipient(cleaned) && TrimEol(cleaned) == cleaned
    requires RunJob(d, job, f).error.None? && ValidName(app) && ValidName(env)
    ensures var after := RunJob(d, job, f).disk.files;
      var was, now := FindEntry(d.files, app, env), FindEntry(after, app, env);
      && (app == job.app && env == job.env ==>
            was.Ok? && now.Ok? && now.value.recipients == AddTo(was.value.recipients, cleaned)
            && now.value.version == was.value.version + 1)
      && (app != job.app || env != job.env ==>
            now == was && Snapshot(after, BundlePath(app, env)) == Snapshot(d.files, BundlePath(app, env)))
  {
    PreparedShape(d.files, job);
    var c := Prepared(d.files, job).value;
    if app == job.app && env == job.env {
      SuccessIsCommitted(d, c, false, f);
      CommittedSelf(d.files, c, CipherFor(c, d.nextId));
      AddedRecipients(d.files, job, cleaned);
    } else {
      CommitFrame(d, c, false, f, app, env);
    }
  }

  lemma AddedRecipients(files: FileMap, job: Job, cleaned: string)
    requires job.Mutate? && job.op == Op.AddRecipient(cleaned) && TrimEol(cleaned) == cleaned
    requires Prepared(files, job).Ok?
    ensures FindEntry(files, job.app, job.env).Ok?
    ensures Prepared(files, job).value.meta.recipients == AddTo(FindEntry(files, job.app, job.env).value.recipients, cleaned)
  {
  }

  // ---- the other paths ------------------------------------------------------------------------------

  ghost predicate Unchanged(h: Digests, w: World, f: PolicyFile, q: AddRequest, e: GateError) {
    Add(h, w, f, q) == (w, Err(e))
  }

  /** The answer of the store's own operation, and nothing else happens. */
  ghost predicate AddsAtOnce(h: Digests, w: World, f: PolicyFile, q: AddRequest, cleaned: string) {
    var r := RunJob(w.disk, Mutate(q.app, q.env, q.who, Op.AddRecipient(cleaned), q.at), q.writes);
    Add(h, w, f, q)
      == (World(r.disk, w.dir),
          if r.error.Some? then Err(StoreError(r.error.value)) else Ok(Added(VerifyResult([], []))))
  }

  /** Refusals that come before anything is looked up. */
  lemma RejectedAtOnce(h: Digests, w: World, f: PolicyFile, q: AddRequest)
    ensures CleanRecipient(q.recipient).None? ==> Unchanged(h, w, f, q, StoreError(BadRecipient))
    ensures CleanRecipient(q.recipient).Some? && (f.BadPolicy? || (f.Given? && !ValidPolicy(f.policy))) ==>
      Unchanged(h, w, f, q, PolicyRejected)
    ensures CleanRecipient(q.recipient).Some? && f.Given? && ValidPolicy(f.policy)
            && (exists op :: op in f.policy.operators && !ValidRecipient(op.recipient)) ==>
      Unchanged(h, w, f, q, BadOperator)
  {
    if f.Given? {
      CleanByMembers(f.policy.operators);
    }
  }

  lemma CleanByMembers(ops: seq<Operator>)
    ensures OperatorsClean(ops) <==> forall op :: op in ops ==> ValidRecipient(op.recipient)
  {
    if forall op :: op in ops ==> ValidRecipient(op.recipient) {
      forall i | 0 <= i < |ops|
        ensures ValidRecipient(ops[i].recipient)
      {
        assert ops[i] in ops;
      }
    }
  }

  /** Without a policy file the recipient is added at once, bootstrap or not. */
  lemma WithoutPolicy(h: Digests, w: World, q: AddRequest, cleaned: string)
    requires CleanRecipient(q.recipient) == Some(cleaned)
    ensures AddsAtOnce(h, w, NoPolicy, q, cleaned)
  {
  }

  /** Bootstrap is refused from two recipients on, and before that it is the store's operation. It
      never looks at the pending directory. */
  lemma BootstrapDecides(h: Digests, w: World, f: PolicyFile, q: AddRequest, cleaned: string)
    requires CleanRecipient(q.recipient) == Some(cleaned) && q.bootstrap
    requires f.Given? && ValidPolicy(f.policy) && OperatorsClean(f.policy.operators)
    ensures if !ValidName(q.app) || !ValidName(q.env) then Unchanged(h, w, f, q, StoreError(BadName))
      else
        match FindEntry(w.disk.files, q.app, q.env)
        case Err(e) => Unchanged(h, w, f, q, StoreError(e))
        case Ok(meta) =>
          if |meta.recipients| >= 2 then Unchanged(h, w, f, q, BootstrapRejected)
          else AddsAtOnce(h, w, f, q, cleaned)
  {
  }

  /** What is pending for something else, or cannot be read, blocks the addition. */
  lemma OtherPending(h: Digests, w: World, f: PolicyFile, q: AddRequest, cleaned: string)
    requires CleanRecipient(q.recipient) == Some(cleaned) && !q.bootstrap
    requires f.Given? && ValidPolicy(f.policy) && OperatorsClean(f.policy.operators)
    ensures META_NAME in w.dir && (!w.dir[META_NAME].MetaJson? || w.dir[META_NAME].meta.version != 1) ==>
      Unchanged(h, w, f, q, PendingError(BadMeta))
    ensures forall m: Meta :: LoadMeta(w.dir) == Ok(Some(m)) && m.newRecipient != cleaned ==>
      Unchanged(h, w, f, q, PendingError(OtherRecipient))
    ensures forall m: Meta :: LoadMeta(w.dir) == Ok(Some(m)) && m.newRecipient == cleaned
                              && (m.app != q.app || m.env != q.env) ==>
      Unchanged(h, w, f, q, PendingError(OtherNamespace))
  {
  }
}
