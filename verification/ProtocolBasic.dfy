/** What holds in every run, whatever fails: the lock discipline, the shape of the manifest, the
    relation of every process to the current version, and the count of commits. */
module ProtocolBasic {
  import opened Strings
  import opened Validate
  import opened Files
  import opened Edits
  import opened Transactions
  import opened StoreLaws
  import opened Protocol
  import Dotenv

  predicate HoldsExclusive(pc: Pc) {
    || pc.ExclusiveHeld? || pc.Checked? || pc.BundleDone? || pc.OriginsDone?
    || pc.UndoBundle? || pc.UndoOrigins?
  }

  /** The lock records exactly the processes that are inside their critical section. */
  ghost predicate LockOk(s: Sys) {
    && (forall p :: p in s.lock.shared <==> p in s.procs && s.procs[p].pc.SharedHeld?)
    && (forall p :: s.lock.exclusive == Some(p) <==> p in s.procs && HoldsExclusive(s.procs[p].pc))
    && (s.lock.exclusive.Some? ==> s.lock.shared == {})
  }

  ghost predicate EntryShape(app: string, env: string, meta: EnvMeta) {
    ValidName(app) && ValidName(env) && meta.file == BundlePath(app, env) && ListInvariant(meta.recipients)
  }

  ghost predicate EntryShaped(m: Manifest, app: string, env: string) {
    EnvFrom(m, app, env).Some? ==> EntryShape(app, env, EnvFrom(m, app, env).value)
  }

  ghost predicate ManifestShape(m: Manifest) {
    forall app, env :: EntryShaped(m, app, env)
  }

  /** A loaded entry is the current one or an older version of it. */
  ghost predicate MetaOk(m: Manifest, job: Job, meta: EnvMeta) {
    && CheckJob(job).None? && !job.Init?
    && EntryShape(job.app, job.env, meta)
    && match EnvFrom(m, job.app, job.env)
       case None => false
       case Some(cur) => meta.version <= cur.version && (meta.version == cur.version ==> meta == cur)
  }

  ghost predicate CommitOk(m: Manifest, job: Job, c: Commit) {
    && CheckJob(job).None? && !job.Read?
    && CommitShape(c) && c.app == job.app && c.env == job.env
    && (job.Init? ==> c == InitCommit(job))
    && (job.Mutate? ==>
          && c.meta.version == c.loadedVersion + 1
          && (c.origins.Some? <==> !RecipientOnly(job.op))
          && match EnvFrom(m, c.app, c.env)
             case None => false
             case Some(cur) => c.loadedVersion <= cur.version)
  }

  /** The exclusive lock is held and the version check has been passed. */
  ghost predicate Admitted(m: Manifest, job: Job, c: Commit, disk: Manifest) {
    CommitOk(m, job, c) && disk == m && Admit(m, c, job.Init?).None?
  }

  ghost predicate ProcOk(m: Manifest, proc: Proc) {
    match proc.pc
    case SharedHeld => CheckJob(proc.job).None? && !proc.job.Init?
    case Loaded(meta) => MetaOk(m, proc.job, meta)
    case Hashed(meta) => MetaOk(m, proc.job, meta)
    case Decrypted(meta, plain) => MetaOk(m, proc.job, meta) && proc.job.Mutate? && Dotenv.Parsed(plain).Ok?
    case Ready(c) => CommitOk(m, proc.job, c)
    case ExclusiveHeld(c) => CommitOk(m, proc.job, c)
    case Checked(c, disk, _, _) => Admitted(m, proc.job, c, disk)
    case BundleDone(c, cipher, disk, _, _) =>
      Admitted(m, proc.job, c, disk) && cipher == CipherFor(c, cipher.id)
    case OriginsDone(c, cipher, disk, _, _) =>
      Admitted(m, proc.job, c, disk) && cipher == CipherFor(c, cipher.id) && c.origins.Some?
    case UndoBundle(c, _, _) => CommitOk(m, proc.job, c)
    case UndoOrigins(c, _) => CommitOk(m, proc.job, c)
    case ReadDone(values, meta, plain) =>
      MetaOk(m, proc.job, meta) && proc.job.Read? && Dotenv.Parsed(plain) == Ok(values)
    case _ => true
  }

  ghost predicate Basic(s: Sys) {
    && LoadManifest(s.files).Ok?
    && ManifestShape(LoadManifest(s.files).value)
    && LockOk(s)
    && forall p :: p in s.procs ==> ProcOk(LoadManifest(s.files).value, s.procs[p])
  }

  // ---- steps that leave the manifest alone ------------------------------------------------------------

  /** The lock moved along with the program counter of `p`, and was free when it was taken. */
  ghost predicate LockMoved(s: Sys, t: Sys, p: Pid, before: Pc, after: Pc) {
    && (forall q :: q in t.lock.shared <==> if q == p then after.SharedHeld? else q in s.lock.shared)
    && t.lock.exclusive == (if HoldsExclusive(after) then Some(p)
                            else if HoldsExclusive(before) then None else s.lock.exclusive)
    && (HoldsExclusive(after) ==> HoldsExclusive(before) || s.lock == FREE)
    && (after.SharedHeld? ==> s.lock.exclusive.None?)
  }

  lemma LockMove(s: Sys, t: Sys, p: Pid)
    requires LockOk(s) && OnlyMoves(s, t, p)
    requires LockMoved(s, t, p, s.procs[p].pc, t.procs[p].pc)
    ensures LockOk(t)
  {
    forall q
      ensures t.lock.exclusive == Some(q) <==> q in t.procs && HoldsExclusive(t.procs[q].pc)
      ensures q in t.lock.shared <==> q in t.procs && t.procs[q].pc.SharedHeld?
    {
      assert s.lock.exclusive == Some(q) <==> q in s.procs && HoldsExclusive(s.procs[q].pc);
      assert s.lock.exclusive == Some(p) <==> HoldsExclusive(s.procs[p].pc);
    }
    if t.lock.exclusive.Some? {
      assert t.lock.shared == {};
    }
  }

  lemma BasicMove(s: Sys, t: Sys, p: Pid)
    requires Basic(s) && OnlyMoves(s, t, p)
    requires LoadManifest(t.files) == LoadManifest(s.files)
    requires ProcOk(LoadManifest(s.files).value, t.procs[p])
    requires LockMoved(s, t, p, s.procs[p].pc, t.procs[p].pc)
    ensures Basic(t)
  {
    LockMove(s, t, p);
  }

  /** Writing the two data files of a namespace never touches the manifest. */
  lemma DataWritesKeepManifest(files: FileMap, c: Commit, cipher: Cipher, prior: Option<Content>)
    requires CommitShape(c)
    ensures LoadManifest(PutBundle(files, c, cipher)) == LoadManifest(files)
    ensures LoadManifest(PutOrigins(files, c)) == LoadManifest(files)
    ensures LoadManifest(Restore(files, c.meta.file, prior)) == LoadManifest(files)
    ensures LoadManifest(Restore(files, OriginsPath(c.app, c.env), prior)) == LoadManifest(files)
  {
    PathsDistinct(c.app, c.env, c.app, c.env);
  }

  lemma HolderHoldsLock(s: Sys, p: Pid)
    requires LockOk(s) && p in s.procs && HoldsExclusive(s.procs[p].pc)
    ensures s.lock == Lock({}, Some(p))
  {
  }

  lemma SharedHolder(s: Sys, p: Pid)
    requires LockOk(s) && p in s.procs && s.procs[p].pc.SharedHeld?
    ensures p in s.lock.shared && s.lock.exclusive.None?
  {
  }

  lemma BasicIdle(s: Sys, p: Pid, fail: bool)
    requires Basic(s) && p in s.procs && s.procs[p].pc.Idle?
    ensures Basic(StepIdle(s, p, fail)) && StepIdle(s, p, fail).files == s.files
  {
    var t := StepIdle(s, p, fail);
    var job := s.procs[p].job;
    assert p !in s.lock.shared;
    if job.Init? && CheckJob(job).None? {
      InitShape(job);
    }
    assert t.procs == s.procs[p := t.procs[p]];
    BasicMove(s, t, p);
  }

  lemma BasicShared(s: Sys, p: Pid, fail: bool)
    requires Basic(s) && p in s.procs && s.procs[p].pc.SharedHeld?
    ensures Basic(StepShared(s, p, fail)) && StepShared(s, p, fail).files == s.files
  {
    var job := s.procs[p].job;
    SharedHolder(s, p);
    assert ProcOk(LoadManifest(s.files).value, s.procs[p]);
    assert EntryShaped(LoadManifest(s.files).value, job.app, job.env);
    BasicMove(s, StepShared(s, p, fail), p);
  }

  /** A step outside the lock. */
  lemma BasicLocal(s: Sys, p: Pid, pc: Pc)
    requires Basic(s) && p in s.procs
    requires !s.procs[p].pc.SharedHeld? && !HoldsExclusive(s.procs[p].pc)
    requires !pc.SharedHeld? && !HoldsExclusive(pc)
    requires ProcOk(LoadManifest(s.files).value, s.procs[p].(pc := pc))
    ensures Basic(Move(s, p, pc))
  {
    assert p !in s.lock.shared;
    BasicMove(s, Move(s, p, pc), p);
  }

  lemma BasicHash(s: Sys, p: Pid, fail: bool)
    requires Basic(s) && p in s.procs && s.procs[p].pc.Loaded?
    ensures Basic(StepHash(s, p, s.procs[p].pc.meta, fail))
    ensures StepHash(s, p, s.procs[p].pc.meta, fail).files == s.files
  {
    assert ProcOk(LoadManifest(s.files).value, s.procs[p]);
    BasicLocal(s, p, StepHash(s, p, s.procs[p].pc.meta, fail).procs[p].pc);
  }

  lemma BasicDecrypt(s: Sys, p: Pid, fail: bool)
    requires Basic(s) && p in s.procs && s.procs[p].pc.Hashed?
    ensures !s.procs[p].job.Init? && Basic(StepDecrypt(s, p, s.procs[p].pc.meta, fail))
    ensures StepDecrypt(s, p, s.procs[p].pc.meta, fail).files == s.files
  {
    assert ProcOk(LoadManifest(s.files).value, s.procs[p]);
    BasicLocal(s, p, StepDecrypt(s, p, s.procs[p].pc.meta, fail).procs[p].pc);
  }

  lemma EditedCommitOk(m: Manifest, job: Job, meta: EnvMeta, plain: string, origins: OriginMap)
    requires MetaOk(m, job, meta) && job.Mutate? && EditPlain(job, meta, plain, origins).Ok?
    ensures CommitOk(m, job, EditPlain(job, meta, plain, origins).value)
  {
    EditPlainShape(job, meta, plain, origins);
  }

  lemma BasicEdit(s: Sys, p: Pid, fail: bool)
    requires Basic(s) && p in s.procs && s.procs[p].pc.Decrypted?
    ensures s.procs[p].job.Mutate?
    ensures Basic(StepEdit(s, p, s.procs[p].pc.meta, s.procs[p].pc.plain, fail))
    ensures StepEdit(s, p, s.procs[p].pc.meta, s.procs[p].pc.plain, fail).files == s.files
  {
    var job, pc, m := s.procs[p].job, s.procs[p].pc, LoadManifest(s.files).value;
    assert ProcOk(m, s.procs[p]);
    var origins := EditOrigins(s.files, job);
    if fail || origins.Err? || EditPlain(job, pc.meta, pc.plain, origins.value).Err? {
      BasicLocal(s, p, Failed);
    } else {
      var c := EditPlain(job, pc.meta, pc.plain, origins.value).value;
      EditedCommitOk(m, job, pc.meta, pc.plain, origins.value);
      BasicLocal(s, p, Ready(c));
    }
  }

  lemma BasicReady(s: Sys, p: Pid, fail: bool)
    requires Basic(s) && p in s.procs && s.procs[p].pc.Ready?
    ensures Basic(StepReady(s, p, s.procs[p].pc.c, fail))
    ensures StepReady(s, p, s.procs[p].pc.c, fail).files == s.files
  {
    assert ProcOk(LoadManifest(s.files).value, s.procs[p]);
    assert p !in s.lock.shared;
    BasicMove(s, StepReady(s, p, s.procs[p].pc.c, fail), p);
  }

  lemma BasicCheck(s: Sys, p: Pid, fail: bool)
    requires Basic(s) && p in s.procs && s.procs[p].pc.ExclusiveHeld?
    ensures Basic(StepCheck(s, p, s.procs[p].pc.c, fail))
    ensures StepCheck(s, p, s.procs[p].pc.c, fail).files == s.files
  {
    assert ProcOk(LoadManifest(s.files).value, s.procs[p]);
    HolderHoldsLock(s, p);
    BasicMove(s, StepCheck(s, p, s.procs[p].pc.c, fail), p);
  }

  lemma BasicBundle(s: Sys, p: Pid, fail: bool)
    requires Basic(s) && p in s.procs && s.procs[p].pc.Checked?
    ensures Basic(StepBundle(s, p, s.procs[p].pc, fail))
    ensures LoadManifest(StepBundle(s, p, s.procs[p].pc, fail).files) == LoadManifest(s.files)
  {
    var pc := s.procs[p].pc;
    assert ProcOk(LoadManifest(s.files).value, s.procs[p]);
    HolderHoldsLock(s, p);
    DataWritesKeepManifest(s.files, pc.c, CipherFor(pc.c, s.nextId), None);
    BasicMove(s, StepBundle(s, p, pc, fail), p);
  }

  lemma BasicOrigins(s: Sys, p: Pid, fail: bool)
    requires Basic(s) && p in s.procs && s.procs[p].pc.BundleDone? && s.procs[p].pc.c.origins.Some?
    ensures Basic(StepOrigins(s, p, s.procs[p].pc, fail))
    ensures LoadManifest(StepOrigins(s, p, s.procs[p].pc, fail).files) == LoadManifest(s.files)
  {
    var pc := s.procs[p].pc;
    assert ProcOk(LoadManifest(s.files).value, s.procs[p]);
    HolderHoldsLock(s, p);
    DataWritesKeepManifest(s.files, pc.c, pc.cipher, None);
    BasicMove(s, StepOrigins(s, p, pc, fail), p);
  }

  lemma BasicManifestFails(s: Sys, p: Pid)
    requires Basic(s) && p in s.procs
    requires s.procs[p].pc.OriginsDone? || (s.procs[p].pc.BundleDone? && s.procs[p].pc.c.origins.None?)
    ensures Basic(Apply(s, Step(p, true))) && Apply(s, Step(p, true)).files == s.files
  {
    assert ProcOk(LoadManifest(s.files).value, s.procs[p]);
    HolderHoldsLock(s, p);
    var t := Apply(s, Step(p, true));
    BasicMove(s, t, p);
  }

  lemma BasicUndo(s: Sys, p: Pid, fail: bool)
    requires Basic(s) && p in s.procs && (s.procs[p].pc.UndoBundle? || s.procs[p].pc.UndoOrigins?)
    ensures Basic(Apply(s, Step(p, fail)))
    ensures LoadManifest(Apply(s, Step(p, fail)).files) == LoadManifest(s.files)
  {
    var pc := s.procs[p].pc;
    assert ProcOk(LoadManifest(s.files).value, s.procs[p]);
    HolderHoldsLock(s, p);
    DataWritesKeepManifest(s.files, pc.c, CipherFor(pc.c, 0), if pc.UndoBundle? then pc.bundle else pc.origins);
    var t := Apply(s, Step(p, fail));
    BasicMove(s, t, p);
  }

  // ---- the step that writes the manifest --------------------------------------------------------------

  /** The process is about to write the manifest, and the write succeeds. */
  predicate Commits(s: Sys, a: Action) {
    && a.Step? && !a.fail && PcOf(s, a).Some?
    && var pc := PcOf(s, a).value;
       pc.OriginsDone? || (pc.BundleDone? && pc.c.origins.None?)
  }

  /** A newer version of one entry keeps what every process outside the lock relies on. */
  lemma ProcOkStable(m: Manifest, c: Commit, meta: EnvMeta, proc: Proc)
    requires ProcOk(m, proc) && !HoldsExclusive(proc.pc)
    requires match EnvFrom(m, c.app, c.env)
      case None => true
      case Some(cur) => cur.version < meta.version
    ensures ProcOk(MergeInto(m, c.app, c.env, meta), proc)
  {
    MergeIntoFrame(m, c.app, c.env, meta, proc.job.app, proc.job.env);
  }

  lemma ManifestShapeStable(m: Manifest, c: Commit, meta: EnvMeta)
    requires ManifestShape(m) && EntryShape(c.app, c.env, meta)
    ensures ManifestShape(MergeInto(m, c.app, c.env, meta))
  {
    forall app, env
      ensures EntryShaped(MergeInto(m, c.app, c.env, meta), app, env)
    {
      MergeIntoFrame(m, c.app, c.env, meta, app, env);
      assert EntryShaped(m, app, env);
    }
  }

  lemma CommitStep(s: Sys, a: Action)
    requires Basic(s) && Commits(s, a)
    ensures var pc := s.procs[a.pid].pc;
      var t := Apply(s, a);
      var m := LoadManifest(s.files).value;
      && Admitted(m, s.procs[a.pid].job, pc.c, pc.disk)
      && t == WriteManifest(s, a.pid, pc.c, pc.cipher, m)
      && LoadManifest(t.files) == Ok(MergeInto(m, pc.c.app, pc.c.env, Stamped(pc.c, pc.cipher)))
  {
    assert ProcOk(LoadManifest(s.files).value, s.procs[a.pid]);
  }

  lemma BasicCommit(s: Sys, a: Action)
    requires Basic(s) && Commits(s, a)
    ensures Basic(Apply(s, a))
  {
    var t := Apply(s, a);
    var pc := s.procs[a.pid].pc;
    var m := LoadManifest(s.files).value;
    CommitStep(s, a);
    ManifestShapeStable(m, pc.c, Stamped(pc.c, pc.cipher));
    forall q | q in t.procs
      ensures ProcOk(LoadManifest(t.files).value, t.procs[q])
    {
      if q != a.pid {
        assert s.lock.exclusive == Some(a.pid) && !HoldsExclusive(s.procs[q].pc);
        ProcOkStable(m, pc.c, Stamped(pc.c, pc.cipher), s.procs[q]);
      }
    }
    CommitLock(s, a);
  }

  lemma CommitLock(s: Sys, a: Action)
    requires Basic(s) && Commits(s, a)
    ensures LockOk(Apply(s, a))
  {
    HolderHoldsLock(s, a.pid);
    CommitLeaves(s, a);
    LockMove(s, Apply(s, a), a.pid);
  }

  lemma CommitLeaves(s: Sys, a: Action)
    requires Commits(s, a)
    ensures Apply(s, a).procs[a.pid].pc == CommitDone
    ensures Apply(s, a).lock == s.lock.(exclusive := None)
  {
  }

  lemma {:induction false} BasicStep(s: Sys, a: Action)
    requires Basic(s)
    ensures Basic(Apply(s, a))
    ensures !Commits(s, a) ==> LoadManifest(Apply(s, a).files) == LoadManifest(s.files)
    ensures !Commits(s, a) ==> Apply(s, a).log == s.log
  {
    if a.Spawn? {
      SpawnBasic(s, a);
    } else if a.pid in s.procs {
      var p, fail := a.pid, a.fail;
      if HoldsExclusive(s.procs[p].pc) {
        BasicHolder(s, a);
      } else {
        match s.procs[p].pc
        case Idle => BasicIdle(s, p, fail);
        case SharedHeld => BasicShared(s, p, fail);
        case Loaded(_) => BasicHash(s, p, fail);
        case Hashed(_) => BasicDecrypt(s, p, fail);
        case Decrypted(_, _) => BasicEdit(s, p, fail);
        case Ready(_) => BasicReady(s, p, fail);
        case _ =>
      }
    }
  }

  lemma BasicHolder(s: Sys, a: Action)
    requires Basic(s) && a.Step? && a.pid in s.procs && HoldsExclusive(s.procs[a.pid].pc)
    ensures Basic(Apply(s, a))
    ensures !Commits(s, a) ==> LoadManifest(Apply(s, a).files) == LoadManifest(s.files)
    ensures !Commits(s, a) ==> Apply(s, a).log == s.log
  {
    var p, fail, pc := a.pid, a.fail, s.procs[a.pid].pc;
    if Commits(s, a) {
      BasicCommit(s, a);
    } else if pc.OriginsDone? || (pc.BundleDone? && pc.c.origins.None?) {
      BasicManifestFails(s, p);
      assert a == Step(p, true);
    } else {
      assert a == Step(p, fail);
      if pc.UndoBundle? || pc.UndoOrigins? {
        BasicUndo(s, p, fail);
      } else {
        BasicBeforeManifest(s, p, fail);
      }
    }
  }

  lemma BasicBeforeManifest(s: Sys, p: Pid, fail: bool)
    requires Basic(s) && p in s.procs && HoldsExclusive(s.procs[p].pc)
    requires !s.procs[p].pc.OriginsDone? && (s.procs[p].pc.BundleDone? ==> s.procs[p].pc.c.origins.Some?)
    requires !s.procs[p].pc.UndoBundle? && !s.procs[p].pc.UndoOrigins?
    ensures var t := Apply(s, Step(p, fail));
      Basic(t) && LoadManifest(t.files) == LoadManifest(s.files) && t.log == s.log
  {
    match s.procs[p].pc
    case ExclusiveHeld(_) => BasicCheck(s, p, fail);
    case Checked(_, _, _, _) => BasicBundle(s, p, fail);
    case BundleDone(_, _, _, _, _) => BasicOrigins(s, p, fail);
  }

  lemma SpawnBasic(s: Sys, a: Action)
    requires Basic(s) && a.Spawn?
    ensures Basic(Apply(s, a))
  {
  }

  // ---- versions ---------------------------------------------------------------------------------------

  /** A namespace's version number, 0 before it exists. */
  function Number(files: FileMap, app: string, env: string): nat {
    match FindEntry(files, app, env)
    case Ok(meta) => meta.version
    case Err(_) => 0
  }

  predicate Concerns(e: Event, app: string, env: string) {
    e.job.app == app && e.job.env == env
  }

  function CommitCount(log: seq<Event>, app: string, env: string): nat {
    if log == [] then 0
    else CommitCount(log[..|log| - 1], app, env) + if Concerns(log[|log| - 1], app, env) then 1 else 0
  }

  ghost predicate EventAccounted(files0: FileMap, log: seq<Event>, i: nat)
    requires i < |log|
  {
    var e := log[i];
    e.version == Number(files0, e.job.app, e.job.env) + CommitCount(log[..i + 1], e.job.app, e.job.env)
  }

  ghost predicate NumberAccounted(files0: FileMap, s: Sys, app: string, env: string) {
    Number(s.files, app, env) == Number(files0, app, env) + CommitCount(s.log, app, env)
  }

  /** Each event of the log created the version after the one before it. */
  ghost predicate Accounted(files0: FileMap, s: Sys) {
    && (forall app, env :: NumberAccounted(files0, s, app, env))
    && (forall i :: 0 <= i < |s.log| ==> EventAccounted(files0, s.log, i))
  }

  lemma CommitNumber(s: Sys, a: Action, app: string, env: string)
    requires Basic(s) && Commits(s, a)
    ensures var c := s.procs[a.pid].pc.c;
      var before := Number(s.files, app, env);
      && Number(Apply(s, a).files, app, env) == before + (if c.app == app && c.env == env then 1 else 0)
      && (c.app == app && c.env == env ==> c.meta.version == before + 1)
  {
    CommitStep(s, a);
    var pc := s.procs[a.pid].pc;
    MergeIntoFrame(LoadManifest(s.files).value, pc.c.app, pc.c.env, Stamped(pc.c, pc.cipher), app, env);
  }

  lemma AccountedCommit(files0: FileMap, s: Sys, a: Action)
    requires Basic(s) && Accounted(files0, s) && Commits(s, a)
    ensures Accounted(files0, Apply(s, a))
  {
    var t := Apply(s, a);
    CommitStep(s, a);
    var c := s.procs[a.pid].pc.c;
    assert t.log[..|t.log| - 1] == s.log;
    forall app, env
      ensures NumberAccounted(files0, t, app, env)
    {
      assert NumberAccounted(files0, s, app, env);
      CommitNumber(s, a, app, env);
    }
    CommitNumber(s, a, c.app, c.env);
    forall i | 0 <= i < |t.log|
      ensures EventAccounted(files0, t.log, i)
    {
      if i < |s.log| {
        assert EventAccounted(files0, s.log, i);
        assert t.log[..i + 1] == s.log[..i + 1];
      } else {
        assert NumberAccounted(files0, t, c.app, c.env);
        assert t.log[..i + 1] == t.log;
      }
    }
  }

  lemma AccountedStep(files0: FileMap, s: Sys, a: Action)
    requires Basic(s) && Accounted(files0, s)
    ensures Accounted(files0, Apply(s, a))
  {
    BasicStep(s, a);
    if Commits(s, a) {
      AccountedCommit(files0, s, a);
    } else {
      forall app, env
        ensures NumberAccounted(files0, Apply(s, a), app, env)
      {
        assert NumberAccounted(files0, s, app, env);
      }
    }
  }

  // ---- whole runs -------------------------------------------------------------------------------------

  lemma StartBasic(s: Sys)
    requires Start(s) && Sound(s.files)
    ensures Basic(s) && Accounted(s.files, s)
  {
    forall app, env
      ensures EntryShaped(LoadManifest(s.files).value, app, env)
    {
      assert NamespaceSound(s.files, LoadManifest(s.files).value, app, env);
    }
  }

  lemma {:induction false} RunBasic(s: Sys, run: seq<Action>)
    requires Start(s) && Sound(s.files)
    ensures Basic(Exec(s, run)) && Accounted(s.files, Exec(s, run))
  {
    StartBasic(s);
    if run != [] {
      var n := |run| - 1;
      RunBasic(s, run[..n]);
      BasicStep(Exec(s, run[..n]), run[n]);
      AccountedStep(s.files, Exec(s, run[..n]), run[n]);
    }
  }

  lemma {:induction false} CommitCountGrows(log: seq<Event>, i: nat, j: nat, app: string, env: string)
    requires i < j < |log| && Concerns(log[j], app, env)
    ensures CommitCount(log[..i + 1], app, env) < CommitCount(log[..j + 1], app, env)
  {
    assert log[..j + 1][..j] == log[..j];
    if i + 1 < j {
      CommitCountMonotone(log, i + 1, j, app, env);
    }
  }

  lemma {:induction false} CommitCountMonotone(log: seq<Event>, i: nat, j: nat, app: string, env: string)
    requires i <= j <= |log|
    ensures CommitCount(log[..i], app, env) <= CommitCount(log[..j], app, env)
  {
    if i < j {
      CommitCountMonotone(log, i, j - 1, app, env);
      assert log[..j][..j - 1] == log[..j - 1];
    }
  }

  /** In every run, whatever fails, a namespace's version is its initial one plus the number of
      its successful commits, and no two commits of a namespace create the same version: of the
      processes that loaded one version at most one commits. */
  lemma {:induction false} VersionConservation(s: Sys, run: seq<Action>, app: string, env: string)
    requires Start(s) && Sound(s.files)
    ensures Number(Exec(s, run).files, app, env)
         == Number(s.files, app, env) + CommitCount(Exec(s, run).log, app, env)
    ensures VersionsIncrease(Exec(s, run).log, app, env)
  {
    RunBasic(s, run);
    assert NumberAccounted(s.files, Exec(s, run), app, env);
    var log := Exec(s, run).log;
    forall i, j | 0 <= i < j < |log| && Concerns(log[i], app, env) && Concerns(log[j], app, env)
      ensures log[i].version < log[j].version
    {
      assert EventAccounted(s.files, log, i) && EventAccounted(s.files, log, j);
      CommitCountGrows(log, i, j, app, env);
    }
  }

  /** No two events of a namespace create the same version. */
  ghost predicate VersionsIncrease(log: seq<Event>, app: string, env: string) {
    forall i, j | 0 <= i < j < |log| && Concerns(log[i], app, env) && Concerns(log[j], app, env) ::
      log[i].version < log[j].version
  }

  /** A mutator that holds the lock gets past the check exactly when the namespace is still at the
      version it loaded. A loser fails, releases the lock and leaves every file and the log as
      they were. */
  lemma LosersLeaveNoTrace(s: Sys, run: seq<Action>, p: Pid)
    requires Start(s) && Sound(s.files)
    requires p in Exec(s, run).procs && Exec(s, run).procs[p].pc.ExclusiveHeld? && Exec(s, run).procs[p].job.Mutate?
    ensures var x := Exec(s, run);
      var c, t := x.procs[p].pc.c, Apply(x, Step(p, false));
      && t.files == x.files && t.log == x.log
      && (t.procs[p].pc.Checked? <==> Number(x.files, c.app, c.env) == c.loadedVersion)
      && (!t.procs[p].pc.Checked? ==> t.procs[p].pc == Failed && t.lock == FREE)
  {
    RunBasic(s, run);
    CheckDecides(Exec(s, run), p);
  }

  lemma CheckDecides(x: Sys, p: Pid)
    requires Basic(x) && p in x.procs && x.procs[p].pc.ExclusiveHeld? && x.procs[p].job.Mutate?
    ensures var c, t := x.procs[p].pc.c, Apply(x, Step(p, false));
      && t.files == x.files && t.log == x.log
      && (t.procs[p].pc.Checked? <==> Number(x.files, c.app, c.env) == c.loadedVersion)
      && (!t.procs[p].pc.Checked? ==> t.procs[p].pc == Failed && t.lock == FREE)
  {
    HolderHoldsLock(x, p);
    assert ProcOk(LoadManifest(x.files).value, x.procs[p]);
    assert Apply(x, Step(p, false)) == StepCheck(x, p, x.procs[p].pc.c, false);
  }

  /** At most one process is in the middle of a commit, and nobody loads the manifest then. */
  lemma MutualExclusion(s: Sys, run: seq<Action>, p: Pid, q: Pid)
    requires Start(s) && Sound(s.files)
    requires p in Exec(s, run).procs && q in Exec(s, run).procs && p != q
    requires HoldsExclusive(Exec(s, run).procs[p].pc)
    ensures !HoldsExclusive(Exec(s, run).procs[q].pc) && !Exec(s, run).procs[q].pc.SharedHeld?
  {
    RunBasic(s, run);
  }
}
