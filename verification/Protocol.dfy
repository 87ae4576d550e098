/** Many mutators and readers over one store, one file access at a time.

    A process holds the shared lock only while it finds its manifest entry. It then hashes the
    bundle, decrypts it in a second read and loads the origins file, all without a lock, edits in
    memory, and takes the exclusive lock to check the version and write bundle, origins and
    manifest. Any access may fail. */
module Protocol {
  import opened Strings
  import opened Validate
  import opened Files
  import opened Edits
  import opened Transactions
  import Dotenv

  type Pid = nat

  /** flock: any number of shared holders or one exclusive holder. */
  datatype Lock = Lock(shared: set<Pid>, exclusive: Option<Pid>)

  datatype Pc =
    | Idle
    | SharedHeld
    | Loaded(meta: EnvMeta)
    | Hashed(meta: EnvMeta)
    | Decrypted(meta: EnvMeta, plain: string)
    | Ready(c: Commit)
    | ExclusiveHeld(c: Commit)
    | Checked(c: Commit, disk: Manifest, bundle: Option<Content>, origins: Option<Content>)
    | BundleDone(c: Commit, cipher: Cipher, disk: Manifest, bundle: Option<Content>, origins: Option<Content>)
    | OriginsDone(c: Commit, cipher: Cipher, disk: Manifest, bundle: Option<Content>, origins: Option<Content>)
    | UndoBundle(c: Commit, bundle: Option<Content>, origins: Option<Content>)
    | UndoOrigins(c: Commit, origins: Option<Content>)
    | ReadDone(values: Dotenv.Values, meta: EnvMeta, plain: string)
    | CommitDone
    | Failed

  datatype Proc = Proc(job: Job, pc: Pc)

  /** A successful commit: who did what, and the version it created. */
  datatype Event = Event(pid: Pid, job: Job, version: nat)

  /** `committed` is an auxiliary variable: the files as they were when no commit was under way,
      moved forward when a commit ends. `log` lists the successful commits in order. */
  datatype Sys = Sys(
    files: FileMap, nextId: nat, lock: Lock, procs: map<Pid, Proc>, committed: FileMap, log: seq<Event>)

  /** `fail` says that the access made by this step fails, or that the process gives up. */
  datatype Action = Spawn(pid: Pid, job: Job) | Step(pid: Pid, fail: bool)

  const FREE := Lock({}, None)

  function Move(s: Sys, p: Pid, pc: Pc): Sys
    requires p in s.procs
  {
    s.(procs := s.procs[p := s.procs[p].(pc := pc)])
  }

  /** Ends a process that holds the exclusive lock. */
  function Leave(s: Sys, p: Pid, pc: Pc): Sys
    requires p in s.procs
  {
    Move(s, p, pc).(lock := s.lock.(exclusive := None))
  }

  /** A step changes the program counter of one process and leaves the other processes alone. */
  predicate OnlyMoves(s: Sys, t: Sys, p: Pid) {
    p in s.procs && p in t.procs && t.procs == s.procs[p := s.procs[p].(pc := t.procs[p].pc)]
  }

  // ---- the steps, one per program counter -----------------------------------------------------------

  function StepIdle(s: Sys, p: Pid, fail: bool): (t: Sys)
    requires p in s.procs
    ensures OnlyMoves(s, t, p)
  {
    var job := s.procs[p].job;
    if fail || CheckJob(job).Some? then Move(s, p, Failed)
    else if job.Init? then
      if s.lock == FREE then Move(s, p, ExclusiveHeld(InitCommit(job))).(lock := Lock({}, Some(p))) else s
    else if s.lock.exclusive.None? then Move(s, p, SharedHeld).(lock := Lock(s.lock.shared + {p}, None))
    else s
  }

  function StepShared(s: Sys, p: Pid, fail: bool): (t: Sys)
    requires p in s.procs
    ensures OnlyMoves(s, t, p)
  {
    var job := s.procs[p].job;
    var found := FindEntry(s.files, job.app, job.env);
    Move(s, p, if fail || found.Err? then Failed else Loaded(found.value))
      .(lock := s.lock.(shared := s.lock.shared - {p}))
  }

  function StepHash(s: Sys, p: Pid, meta: EnvMeta, fail: bool): (t: Sys)
    requires p in s.procs
    ensures OnlyMoves(s, t, p)
  {
    Move(s, p, if fail || HashCheck(s.files, meta).Some? then Failed else Hashed(meta))
  }

  function StepDecrypt(s: Sys, p: Pid, meta: EnvMeta, fail: bool): (t: Sys)
    requires p in s.procs && !s.procs[p].job.Init?
    ensures OnlyMoves(s, t, p)
  {
    var job := s.procs[p].job;
    var plain := ReadPlain(s.files, job.who, meta);
    if fail || plain.Err? || Dotenv.Parsed(plain.value).Err? then Move(s, p, Failed)
    else if job.Read? then Move(s, p, ReadDone(Dotenv.Parsed(plain.value).value, meta, plain.value))
    else Move(s, p, Decrypted(meta, plain.value))
  }

  function StepEdit(s: Sys, p: Pid, meta: EnvMeta, plain: string, fail: bool): (t: Sys)
    requires p in s.procs && s.procs[p].job.Mutate?
    ensures OnlyMoves(s, t, p)
  {
    var job := s.procs[p].job;
    var origins := EditOrigins(s.files, job);
    if fail || origins.Err? || EditPlain(job, meta, plain, origins.value).Err? then Move(s, p, Failed)
    else Move(s, p, Ready(EditPlain(job, meta, plain, origins.value).value))
  }

  function StepReady(s: Sys, p: Pid, c: Commit, fail: bool): (t: Sys)
    requires p in s.procs
    ensures OnlyMoves(s, t, p)
  {
    if fail then Move(s, p, Failed)
    else if s.lock == FREE then Move(s, p, ExclusiveHeld(c)).(lock := Lock({}, Some(p)))
    else s
  }

  function StepCheck(s: Sys, p: Pid, c: Commit, fail: bool): (t: Sys)
    requires p in s.procs
    ensures OnlyMoves(s, t, p)
  {
    var disk := LoadManifest(s.files);
    if fail || disk.Err? || Admit(disk.value, c, s.procs[p].job.Init?).Some? then Leave(s, p, Failed)
    else
      Move(s, p, Checked(c, disk.value, Snapshot(s.files, c.meta.file),
                         Snapshot(s.files, OriginsPath(c.app, c.env))))
  }

  function StepBundle(s: Sys, p: Pid, pc: Pc, fail: bool): (t: Sys)
    requires p in s.procs && pc.Checked?
    ensures OnlyMoves(s, t, p)
  {
    var cipher := CipherFor(pc.c, s.nextId);
    if !ValidRecipients(pc.c.meta.recipients) then Leave(s, p, Failed)
    else if fail then Leave(s, p, Failed).(nextId := s.nextId + 1)
    else
      Move(s, p, BundleDone(pc.c, cipher, pc.disk, pc.bundle, pc.origins))
        .(files := PutBundle(s.files, pc.c, cipher), nextId := s.nextId + 1)
  }

  function WriteManifest(s: Sys, p: Pid, c: Commit, cipher: Cipher, disk: Manifest): (t: Sys)
    requires p in s.procs
    ensures OnlyMoves(s, t, p)
  {
    var after := PutManifest(s.files, disk, c, cipher);
    Leave(s, p, CommitDone)
      .(files := after, committed := after, log := s.log + [Event(p, s.procs[p].job, c.meta.version)])
  }

  function StepOrigins(s: Sys, p: Pid, pc: Pc, fail: bool): (t: Sys)
    requires p in s.procs && pc.BundleDone? && pc.c.origins.Some?
    ensures OnlyMoves(s, t, p)
  {
    if fail then Move(s, p, UndoBundle(pc.c, pc.bundle, pc.origins))
    else
      Move(s, p, OriginsDone(pc.c, pc.cipher, pc.disk, pc.bundle, pc.origins))
        .(files := PutOrigins(s.files, pc.c))
  }

  /** The manifest write of the commits without an origins file: no rollback. */
  function StepManifestOnly(s: Sys, p: Pid, pc: Pc, fail: bool): (t: Sys)
    requires p in s.procs && pc.BundleDone? && pc.c.origins.None?
    ensures OnlyMoves(s, t, p)
  {
    if fail then Leave(s, p, Failed).(committed := s.files)
    else WriteManifest(s, p, pc.c, pc.cipher, pc.disk)
  }

  function StepManifest(s: Sys, p: Pid, pc: Pc, fail: bool): (t: Sys)
    requires p in s.procs && pc.OriginsDone?
    ensures OnlyMoves(s, t, p)
  {
    if fail then Move(s, p, UndoBundle(pc.c, pc.bundle, pc.origins))
    else WriteManifest(s, p, pc.c, pc.cipher, pc.disk)
  }

  function StepUndoBundle(s: Sys, p: Pid, pc: Pc, fail: bool): (t: Sys)
    requires p in s.procs && pc.UndoBundle?
    ensures OnlyMoves(s, t, p)
  {
    Move(s, p, UndoOrigins(pc.c, pc.origins))
      .(files := if fail then s.files else Restore(s.files, pc.c.meta.file, pc.bundle))
  }

  function StepUndoOrigins(s: Sys, p: Pid, pc: Pc, fail: bool): (t: Sys)
    requires p in s.procs && pc.UndoOrigins?
    ensures OnlyMoves(s, t, p)
  {
    var after := if fail then s.files else Restore(s.files, OriginsPath(pc.c.app, pc.c.env), pc.origins);
    Leave(s, p, Failed).(files := after, committed := after)
  }

  /** A step that is not enabled, because the process is finished, unknown or waiting for the
      lock, leaves the system as it is. */
  function Apply(s: Sys, a: Action): (t: Sys)
    ensures a.Step? && a.pid in s.procs ==> OnlyMoves(s, t, a.pid)
    ensures a.Step? && a.pid !in s.procs ==> t == s
  {
    match a
    case Spawn(p, job) => if p in s.procs then s else s.(procs := s.procs[p := Proc(job, Idle)])
    case Step(p, fail) =>
      if p !in s.procs then s
      else
        var pc := s.procs[p].pc;
        match pc
        case Idle => StepIdle(s, p, fail)
        case SharedHeld => StepShared(s, p, fail)
        case Loaded(meta) => StepHash(s, p, meta, fail)
        case Hashed(meta) => if s.procs[p].job.Init? then s else StepDecrypt(s, p, meta, fail)
        case Decrypted(meta, plain) => if s.procs[p].job.Mutate? then StepEdit(s, p, meta, plain, fail) else s
        case Ready(c) => StepReady(s, p, c, fail)
        case ExclusiveHeld(c) => StepCheck(s, p, c, fail)
        case Checked(_, _, _, _) => StepBundle(s, p, pc, fail)
        case BundleDone(c, _, _, _, _) =>
          if c.origins.Some? then StepOrigins(s, p, pc, fail) else StepManifestOnly(s, p, pc, fail)
        case OriginsDone(_, _, _, _, _) => StepManifest(s, p, pc, fail)
        case UndoBundle(_, _, _) => StepUndoBundle(s, p, pc, fail)
        case UndoOrigins(_, _) => StepUndoOrigins(s, p, pc, fail)
        case _ => s
  }

  /** A run: the actions taken one after another. */
  function Exec(s: Sys, run: seq<Action>): Sys {
    if run == [] then s
    else Apply(Exec(s, run[..|run| - 1]), run[|run| - 1])
  }

  predicate Start(s: Sys) {
    s.lock == FREE && s.procs == map[] && s.committed == s.files && s.log == []
  }

  // ---- kinds of failure -----------------------------------------------------------------------------

  function PcOf(s: Sys, a: Action): Option<Pc> {
    if a.Step? && a.pid in s.procs then Some(s.procs[a.pid].pc) else None
  }

  /** The commit fails after its bundle write. */
  predicate FailsAfterWrite(s: Sys, a: Action) {
    a.Step? && a.fail && PcOf(s, a).Some? && (PcOf(s, a).value.BundleDone? || PcOf(s, a).value.OriginsDone?)
  }

  /** A failure that no rollback repairs: a rollback write fails, or the manifest write of a
      recipient operation does. */
  predicate Uncontained(s: Sys, a: Action) {
    && a.Step? && a.fail && PcOf(s, a).Some?
    && var pc := PcOf(s, a).value;
       pc.UndoBundle? || pc.UndoOrigins?
       || (pc.BundleDone? && pc.c.origins.None? && s.procs[a.pid].job.Mutate?)
  }

  ghost predicate CleanRun(s: Sys, run: seq<Action>) {
    forall i :: 0 <= i < |run| ==> !FailsAfterWrite(Exec(s, run[..i]), run[i])
  }

  ghost predicate ContainedRun(s: Sys, run: seq<Action>) {
    forall i :: 0 <= i < |run| ==> !Uncontained(Exec(s, run[..i]), run[i])
  }
}
