/** Serialisability, with the exact proviso that the store needs: a commit that fails after its bundle
    write and is rolled back must not have been read by anybody in between. */
module ProtocolSerial {
  import opened Strings
  import opened Validate
  import opened Files
  import opened Edits
  import opened Transactions
  import opened StoreLaws
  import opened Protocol
  import opened ProtocolBasic
  import opened ProtocolSound
  import Dotenv

  // ---- the serial store -------------------------------------------------------------------------------

  /** The logged operations run one after another, alone and without faults. */
  function Replay(d: Disk, log: seq<Event>): Disk {
    if log == [] then d
    else
      var before := Replay(d, log[..|log| - 1]);
      var job := log[|log| - 1].job;
      if job.Read? then before else RunJob(before, job, NO_FAULTS).disk
  }

  ghost predicate ReplaySucceeds(d: Disk, log: seq<Event>) {
    forall i :: 0 <= i < |log| ==>
      !log[i].job.Read? && RunJob(Replay(d, log[..i]), log[i].job, NO_FAULTS).error.None?
  }

  /** The committed files hold what the serial store holds. */
  ghost predicate Serial(d: Disk, s: Sys) {
    && ReplaySucceeds(d, s.log)
    && Sound(Replay(d, s.log).files)
    && SameView(s.committed, Replay(d, s.log).files)
  }

  // ---- quiet runs -------------------------------------------------------------------------------------

  /** A bundle has been written that the manifest does not name, or may just have been taken back. */
  predicate InWindow(pc: Pc) {
    pc.BundleDone? || pc.OriginsDone? || pc.UndoBundle? || pc.UndoOrigins?
  }

  /** The namespace that is in the middle of a commit or of its rollback. */
  function Window(s: Sys): Option<(string, string)> {
    match s.lock.exclusive
    case None => None
    case Some(p) =>
      if p in s.procs && InWindow(s.procs[p].pc) then Some((s.procs[p].pc.c.app, s.procs[p].pc.c.env)) else None
  }

  predicate Undoing(s: Sys) {
    && s.lock.exclusive.Some? && s.lock.exclusive.value in s.procs
    && var pc := s.procs[s.lock.exclusive.value].pc; pc.UndoBundle? || pc.UndoOrigins?
  }

  /** A process decrypts the bundle, or loads the origins, of the namespace in the window. */
  predicate Peeks(s: Sys, a: Action) {
    && a.Step? && a.pid in s.procs && !a.fail
    && var proc := s.procs[a.pid];
       && Window(s) == Some((proc.job.app, proc.job.env))
       && (proc.pc.Hashed? || (proc.pc.Decrypted? && proc.job.Mutate? && !RecipientOnly(proc.job.op)))
  }

  /** The namespace in the window, if somebody has peeked since the window opened. */
  function Next(s: Sys, peeked: Option<(string, string)>, a: Action): Option<(string, string)> {
    if Window(Apply(s, a)).None? then None else if Peeks(s, a) then Window(s) else peeked
  }

  function Peeked(s: Sys, run: seq<Action>): Option<(string, string)> {
    if run == [] then None
    else Next(Exec(s, run[..|run| - 1]), Peeked(s, run[..|run| - 1]), run[|run| - 1])
  }

  /** A commit that somebody has peeked into does not fail, nobody peeks into a rollback, and
      rollbacks work. */
  predicate QuietStep(s: Sys, peeked: Option<(string, string)>, a: Action) {
    && !Uncontained(s, a)
    && (FailsAfterWrite(s, a) ==> peeked.None?)
    && (Peeks(s, a) ==> !Undoing(s))
  }

  /** Commits may fail at any write, and be rolled back, as long as no process decrypts the bundle
      or loads the origins of that namespace between the bundle write and the end of the rollback. */
  ghost predicate QuietRun(s: Sys, run: seq<Action>) {
    forall i :: 0 <= i < |run| ==> QuietStep(Exec(s, run[..i]), Peeked(s, run[..i]), run[i])
  }

  // ---- what each process has computed -----------------------------------------------------------------

  /** What a process has read or computed is what the committed files say, provided the version
      it loaded is still current and its namespace has not been peeked into; inside its own
      critical section, without proviso. */
  ghost predicate Exact(committed: FileMap, peeked: Option<(string, string)>, proc: Proc) {
    var app, env := proc.job.app, proc.job.env;
    match proc.pc
    case Decrypted(meta, plain) =>
      Number(committed, app, env) == meta.version && peeked != Some((app, env)) && proc.job.Mutate? ==>
        ReadBundle(committed, app, env, proc.job.who) == Ok((meta, plain))
    case Ready(c) =>
      Number(committed, app, env) == c.loadedVersion && peeked != Some((app, env)) && proc.job.Mutate? ==>
        Prepared(committed, proc.job) == Ok(c)
    case ExclusiveHeld(c) =>
      Number(committed, app, env) == c.loadedVersion && peeked != Some((app, env)) && proc.job.Mutate? ==>
        Prepared(committed, proc.job) == Ok(c)
    case Checked(c, _, _, _) => proc.job.Mutate? ==> Prepared(committed, proc.job) == Ok(c)
    case BundleDone(c, _, _, _, _) => proc.job.Mutate? ==> Prepared(committed, proc.job) == Ok(c)
    case OriginsDone(c, _, _, _, _) => proc.job.Mutate? ==> Prepared(committed, proc.job) == Ok(c)
    case _ => true
  }

  ghost predicate AllExact(s: Sys, peeked: Option<(string, string)>) {
    forall p :: p in s.procs ==> Exact(s.committed, peeked, s.procs[p])
  }

  /** Only the namespace in the window has been peeked into, and not if it is being rolled back. */
  predicate PeekOk(s: Sys, peeked: Option<(string, string)>) {
    (peeked == None || peeked == Window(s)) && (Undoing(s) ==> peeked == None)
  }

  ghost predicate Quiet(d: Disk, s: Sys, peeked: Option<(string, string)>) {
    Contained(s) && PeekOk(s, peeked) && AllExact(s, peeked) && Serial(d, s)
  }

  // ---- reading and preparing, unlocked ----------------------------------------------------------------

  /** Outside a commit on its namespace, the bundle and origins files are the committed ones. */
  lemma {:induction false} FilesOfIdleNamespace(s: Sys, app: string, env: string)
    requires Contained(s) && ValidName(app) && ValidName(env) && Window(s) != Some((app, env))
    ensures Snapshot(s.files, BundlePath(app, env)) == Snapshot(s.committed, BundlePath(app, env))
    ensures Snapshot(s.files, OriginsPath(app, env)) == Snapshot(s.committed, OriginsPath(app, env))
  {
    if Window(s).Some? {
      var p := s.lock.exclusive.value;
      HolderCommit(s, p);
      var c := s.procs[p].pc.c;
      PathsDistinct(c.app, c.env, app, env);
      PathsDistinct(app, env, c.app, c.env);
      WindowElsewhere(s.files, s.committed, s.procs[p].pc, BundlePath(app, env));
      WindowElsewhere(s.files, s.committed, s.procs[p].pc, OriginsPath(app, env));
    }
  }

  lemma WindowElsewhere(files: FileMap, committed: FileMap, pc: Pc, path: string)
    requires InWindow(pc) && Progress(files, committed, pc)
    requires path != pc.c.meta.file && path != OriginsPath(pc.c.app, pc.c.env)
    ensures Snapshot(files, path) == Snapshot(committed, path)
  {
  }

  lemma ReadIsExact(s: Sys, p: Pid)
    requires Contained(s) && p in s.procs && s.procs[p].pc.Hashed?
    requires var job, meta := s.procs[p].job, s.procs[p].pc.meta;
      && Number(s.committed, job.app, job.env) == meta.version && Window(s) != Some((job.app, job.env))
      && ReadPlain(s.files, job.who, meta).Ok?
      && Dotenv.Parsed(ReadPlain(s.files, job.who, meta).value).Ok?
    ensures var job, meta := s.procs[p].job, s.procs[p].pc.meta;
      ReadBundle(s.committed, job.app, job.env, job.who) == Ok((meta, ReadPlain(s.files, job.who, meta).value))
  {
    var job := s.procs[p].job;
    assert ProcOk(LoadManifest(s.files).value, s.procs[p]);
    FilesOfIdleNamespace(s, job.app, job.env);
    EntryOf(s.committed, job.app, job.env);
  }

  lemma OriginsAreCommitted(s: Sys, job: Job)
    requires Contained(s) && job.Mutate? && ValidName(job.app) && ValidName(job.env)
    requires RecipientOnly(job.op) || Window(s) != Some((job.app, job.env))
    ensures EditOrigins(s.committed, job) == EditOrigins(s.files, job)
  {
    if !RecipientOnly(job.op) {
      FilesOfIdleNamespace(s, job.app, job.env);
    }
  }

  lemma EditIsExact(s: Sys, peeked: Option<(string, string)>, p: Pid)
    requires Contained(s) && AllExact(s, peeked)
    requires p in s.procs && s.procs[p].pc.Decrypted? && s.procs[p].job.Mutate?
    requires var job, pc := s.procs[p].job, s.procs[p].pc;
      && Number(s.committed, job.app, job.env) == pc.meta.version && peeked != Some((job.app, job.env))
      && (RecipientOnly(job.op) || Window(s) != Some((job.app, job.env)))
      && EditOrigins(s.files, job).Ok?
      && EditPlain(job, pc.meta, pc.plain, EditOrigins(s.files, job).value).Ok?
    ensures var job, pc := s.procs[p].job, s.procs[p].pc;
      Prepared(s.committed, job) == EditPlain(job, pc.meta, pc.plain, EditOrigins(s.files, job).value)
  {
    var job, pc := s.procs[p].job, s.procs[p].pc;
    assert ProcOk(LoadManifest(s.files).value, s.procs[p]);
    assert Exact(s.committed, peeked, s.procs[p]);
    OriginsAreCommitted(s, job);
    PreparedFrom(s.committed, job, pc.meta, pc.plain);
  }

  lemma PreparedFrom(files: FileMap, job: Job, meta: EnvMeta, plain: string)
    requires job.Mutate? && ReadBundle(files, job.app, job.env, job.who) == Ok((meta, plain))
    requires EditOrigins(files, job).Ok?
    ensures Prepared(files, job) == EditPlain(job, meta, plain, EditOrigins(files, job).value)
  {
  }

  // ---- steps that do not commit -----------------------------------------------------------------------

  /** A step of `p` that leaves the committed files alone; peeking only takes claims away. */
  lemma ExactMove(s: Sys, t: Sys, p: Pid, peeked: Option<(string, string)>, after: Option<(string, string)>)
    requires AllExact(s, peeked) && OnlyMoves(s, t, p) && t.committed == s.committed
    requires after == peeked || peeked == None
    requires Exact(t.committed, after, t.procs[p])
    ensures AllExact(t, after)
  {
    forall q | q in t.procs
      ensures Exact(t.committed, after, t.procs[q])
    {
      assert Exact(s.committed, peeked, s.procs[q]);
    }
  }

  lemma WindowOutside(s: Sys, a: Action)
    requires LockOk(s) && a.Step? && a.pid in s.procs && !HoldsExclusive(s.procs[a.pid].pc)
    ensures Window(Apply(s, a)) == Window(s) && Undoing(Apply(s, a)) == Undoing(s)
  {
    OutsideEffect(s, a);
    assert s.lock.exclusive != Some(a.pid);
  }

  lemma ExactDecrypt(s: Sys, p: Pid, fail: bool, after: Option<(string, string)>)
    requires Contained(s) && p in s.procs && s.procs[p].pc.Hashed? && !s.procs[p].job.Init?
    requires Peeks(s, Step(p, fail)) ==> after == Window(s)
    ensures Exact(s.committed, after, StepDecrypt(s, p, s.procs[p].pc.meta, fail).procs[p])
  {
    var job, meta := s.procs[p].job, s.procs[p].pc.meta;
    if StepDecrypt(s, p, meta, fail).procs[p].pc.Decrypted? {
      if Number(s.committed, job.app, job.env) == meta.version && Window(s) != Some((job.app, job.env)) {
        ReadIsExact(s, p);
      }
    }
  }

  lemma ExactEdit(s: Sys, peeked: Option<(string, string)>, p: Pid, fail: bool, after: Option<(string, string)>)
    requires Contained(s) && AllExact(s, peeked) && PeekOk(s, peeked)
    requires p in s.procs && s.procs[p].pc.Decrypted? && s.procs[p].job.Mutate?
    requires after == if Peeks(s, Step(p, fail)) then Window(s) else peeked
    ensures Exact(s.committed, after, StepEdit(s, p, s.procs[p].pc.meta, s.procs[p].pc.plain, fail).procs[p])
  {
    var job, pc := s.procs[p].job, s.procs[p].pc;
    var origins := EditOrigins(s.files, job);
    if !fail && origins.Ok? && EditPlain(job, pc.meta, pc.plain, origins.value).Ok? {
      var c := EditPlain(job, pc.meta, pc.plain, origins.value).value;
      assert ProcOk(LoadManifest(s.files).value, s.procs[p]);
      EditPlainShape(job, pc.meta, pc.plain, origins.value);
      if Number(s.committed, job.app, job.env) == c.loadedVersion && after != Some((job.app, job.env)) {
        EditIsExact(s, peeked, p);
      }
    }
  }

  lemma ExactOutside(s: Sys, peeked: Option<(string, string)>, a: Action)
    requires Contained(s) && AllExact(s, peeked) && PeekOk(s, peeked) && QuietStep(s, peeked, a)
    requires a.Step? && a.pid in s.procs && !HoldsExclusive(s.procs[a.pid].pc)
    ensures AllExact(Apply(s, a), Next(s, peeked, a)) && PeekOk(Apply(s, a), Next(s, peeked, a))
  {
    var t, p, after := Apply(s, a), a.pid, Next(s, peeked, a);
    OutsideEffect(s, a);
    WindowOutside(s, a);
    assert after == if Peeks(s, a) then Window(s) else peeked;
    assert Exact(s.committed, peeked, s.procs[p]);
    assert ProcOk(LoadManifest(s.files).value, s.procs[p]);
    var pc := s.procs[p].pc;
    if pc.Hashed? && !s.procs[p].job.Init? {
      ExactDecrypt(s, p, a.fail, after);
      assert t == StepDecrypt(s, p, pc.meta, a.fail);
    } else if pc.Decrypted? {
      ExactEdit(s, peeked, p, a.fail, after);
      assert t == StepEdit(s, p, pc.meta, pc.plain, a.fail);
    } else if !pc.Hashed? {
      ExactElsewhere(s, peeked, a);
    }
    ExactMove(s, t, p, peeked, after);
  }

  lemma ExactElsewhere(s: Sys, peeked: Option<(string, string)>, a: Action)
    requires a.Step? && a.pid in s.procs && !HoldsExclusive(s.procs[a.pid].pc)
    requires !s.procs[a.pid].pc.Hashed? && !s.procs[a.pid].pc.Decrypted?
    requires Exact(s.committed, peeked, s.procs[a.pid])
    ensures Exact(s.committed, peeked, Apply(s, a).procs[a.pid]) && !Peeks(s, a)
  {
  }

  // ---- the exclusive holder before its manifest write -------------------------------------------------

  lemma ExactHolder(s: Sys, peeked: Option<(string, string)>, a: Action)
    requires Contained(s) && AllExact(s, peeked) && PeekOk(s, peeked) && QuietStep(s, peeked, a)
    requires a.Step? && a.pid in s.procs && HoldsExclusive(s.procs[a.pid].pc) && !Commits(s, a)
    ensures AllExact(Apply(s, a), Next(s, peeked, a)) && PeekOk(Apply(s, a), Next(s, peeked, a))
  {
    var p := a.pid;
    HolderHoldsLock(s, p);
    var pc := s.procs[p].pc;
    if pc.ExclusiveHeld? {
      ExactCheck(s, peeked, p, pc.c, a.fail);
    } else if pc.Checked? {
      ExactBundle(s, peeked, p, a.fail);
    } else if pc.UndoBundle? || pc.UndoOrigins? {
      ExactUndo(s, peeked, p, a.fail);
    } else if !a.fail {
      ExactOrigins(s, peeked, p);
    } else if s.procs[p].job.Mutate? {
      ExactFailure(s, peeked, p);
    } else {
      ExactInitFailure(s, peeked, p);
    }
  }

  lemma ExactCheck(s: Sys, peeked: Option<(string, string)>, p: Pid, c: Commit, fail: bool)
    requires Contained(s) && AllExact(s, peeked) && PeekOk(s, peeked)
    requires p in s.procs && s.procs[p].pc == ExclusiveHeld(c) && s.lock.exclusive == Some(p)
    ensures var t := Apply(s, Step(p, fail)); AllExact(t, None) && PeekOk(t, None) && Window(t).None?
  {
    var t := StepCheck(s, p, c, fail);
    assert Apply(s, Step(p, fail)) == t;
    assert Exact(s.committed, peeked, s.procs[p]);
    assert ProcOk(LoadManifest(s.files).value, s.procs[p]);
    ExactMove(s, t, p, peeked, None);
  }

  lemma ExactBundle(s: Sys, peeked: Option<(string, string)>, p: Pid, fail: bool)
    requires AllExact(s, peeked) && PeekOk(s, peeked)
    requires p in s.procs && s.procs[p].pc.Checked? && s.lock.exclusive == Some(p)
    ensures peeked == None && Next(s, peeked, Step(p, fail)) == None
    ensures AllExact(Apply(s, Step(p, fail)), None) && PeekOk(Apply(s, Step(p, fail)), None)
  {
    var t := StepBundle(s, p, s.procs[p].pc, fail);
    assert Apply(s, Step(p, fail)) == t;
    assert Exact(s.committed, peeked, s.procs[p]);
    ExactMove(s, t, p, peeked, None);
  }

  lemma ExactOrigins(s: Sys, peeked: Option<(string, string)>, p: Pid)
    requires AllExact(s, peeked) && PeekOk(s, peeked)
    requires p in s.procs && s.procs[p].pc.BundleDone? && s.procs[p].pc.c.origins.Some?
    requires s.lock.exclusive == Some(p)
    ensures var t := Apply(s, Step(p, false));
      AllExact(t, peeked) && PeekOk(t, peeked) && Next(s, peeked, Step(p, false)) == peeked
  {
    var t := StepOrigins(s, p, s.procs[p].pc, false);
    assert Apply(s, Step(p, false)) == t;
    assert Exact(s.committed, peeked, s.procs[p]);
    ExactMove(s, t, p, peeked, peeked);
  }

  /** A value commit fails that nobody has peeked into: its rollback begins. */
  lemma ExactFailure(s: Sys, peeked: Option<(string, string)>, p: Pid)
    requires AllExact(s, peeked) && PeekOk(s, peeked) && QuietStep(s, peeked, Step(p, true))
    requires p in s.procs && (s.procs[p].pc.BundleDone? || s.procs[p].pc.OriginsDone?) && s.procs[p].job.Mutate?
    requires s.lock.exclusive == Some(p)
    ensures var t := Apply(s, Step(p, true));
      AllExact(t, None) && PeekOk(t, None) && Next(s, peeked, Step(p, true)) == None
  {
    var t, pc := Apply(s, Step(p, true)), s.procs[p].pc;
    assert FailsAfterWrite(s, Step(p, true)) && !Uncontained(s, Step(p, true));
    assert t == Move(s, p, UndoBundle(pc.c, pc.bundle, pc.origins));
    ExactMove(s, t, p, None, None);
  }

  lemma ExactUndo(s: Sys, peeked: Option<(string, string)>, p: Pid, fail: bool)
    requires Contained(s) && AllExact(s, peeked) && PeekOk(s, peeked) && !fail
    requires p in s.procs && (s.procs[p].pc.UndoBundle? || s.procs[p].pc.UndoOrigins?) && s.lock.exclusive == Some(p)
    ensures var t := Apply(s, Step(p, fail));
      AllExact(t, None) && PeekOk(t, None) && Next(s, peeked, Step(p, fail)) == None
  {
    var t := Apply(s, Step(p, fail));
    HolderUndoes(s, Step(p, fail));
    ExactMove(s, t, p, None, None);
  }

  /** A bundle that a failed Init leaves behind concerns nobody. */
  lemma ExactInitFailure(s: Sys, peeked: Option<(string, string)>, p: Pid)
    requires Contained(s) && AllExact(s, peeked) && PeekOk(s, peeked) && QuietStep(s, peeked, Step(p, true))
    requires p in s.procs && (s.procs[p].pc.BundleDone? || s.procs[p].pc.OriginsDone?) && !s.procs[p].job.Mutate?
    requires s.lock.exclusive == Some(p)
    ensures var t := Apply(s, Step(p, true));
      AllExact(t, None) && PeekOk(t, None) && Next(s, peeked, Step(p, true)) == None
  {
    var t, pc := Apply(s, Step(p, true)), s.procs[p].pc;
    assert FailsAfterWrite(s, Step(p, true));
    HolderCommit(s, p);
    assert ProcOk(LoadManifest(s.files).value, s.procs[p]);
    assert t == Leave(s, p, Failed).(committed := s.files);
    forall q | q in t.procs
      ensures Exact(t.committed, None, t.procs[q])
    {
      if q != p {
        assert ProcOk(LoadManifest(s.files).value, s.procs[q]);
        assert Exact(s.committed, None, s.procs[q]);
        assert !HoldsExclusive(s.procs[q].pc);
        ExactOrphan(s.committed, pc.c, pc.cipher, s.procs[q]);
      }
    }
  }

  lemma ExactOrphan(files: FileMap, c: Commit, cipher: Cipher, proc: Proc)
    requires Sound(files) && CommitShape(c) && FindEntry(files, c.app, c.env).Err?
    requires ProcOk(LoadManifest(files).value, proc) && !HoldsExclusive(proc.pc) && Exact(files, None, proc)
    ensures Exact(PutBundle(files, c, cipher), None, proc)
  {
    if proc.pc.Decrypted? || (proc.pc.Ready? && proc.job.Mutate?) {
      OrphanElsewhere(files, c, cipher, proc.job.app, proc.job.env);
    }
  }

  lemma OrphanElsewhere(files: FileMap, c: Commit, cipher: Cipher, app: string, env: string)
    requires Sound(files) && CommitShape(c) && ValidName(app) && ValidName(env)
    requires app != c.app || env != c.env
    ensures var after := PutBundle(files, c, cipher);
      && FindEntry(after, app, env) == FindEntry(files, app, env)
      && (forall who :: ReadBundle(after, app, env, who) == ReadBundle(files, app, env, who))
      && LoadOrigins(after, app, env) == LoadOrigins(files, app, env)
  {
    PathsDistinct(c.app, c.env, c.app, c.env);
    PathsDistinct(c.app, c.env, app, env);
    PathsDistinct(app, env, c.app, c.env);
    EntryOf(files, app, env);
    assert LoadManifest(PutBundle(files, c, cipher)) == LoadManifest(files);
  }

  // ---- the commit step --------------------------------------------------------------------------------

  lemma PreparedFrame(files: FileMap, c: Commit, id: nat, app: string, env: string)
    requires Sound(files) && CommitShape(c) && ValidName(app) && ValidName(env) && (app != c.app || env != c.env)
    ensures var after := Committed(files, c, CipherFor(c, id));
      && FindEntry(after, app, env) == FindEntry(files, app, env)
      && (forall who :: ReadBundle(after, app, env, who) == ReadBundle(files, app, env, who))
      && LoadOrigins(after, app, env) == LoadOrigins(files, app, env)
  {
    CommittedFrame(files, c, CipherFor(c, id), app, env);
    EntryOf(files, app, env);
  }

  lemma ExactStable(files: FileMap, c: Commit, id: nat, proc: Proc)
    requires Sound(files) && CommitShape(c) && c.meta.version > Number(files, c.app, c.env)
    requires ValidName(proc.job.app) && ValidName(proc.job.env)
    requires proc.pc.Decrypted? || proc.pc.Ready?
    requires proc.pc.Decrypted? ==> proc.pc.meta.version <= Number(files, proc.job.app, proc.job.env)
    requires proc.pc.Ready? && proc.job.Mutate? ==>
      proc.pc.c.loadedVersion <= Number(files, proc.job.app, proc.job.env)
    requires Exact(files, Some((c.app, c.env)), proc)
    ensures Exact(Committed(files, c, CipherFor(c, id)), None, proc)
  {
    if proc.job.app == c.app && proc.job.env == c.env {
      CommittedSelf(files, c, CipherFor(c, id));
    } else {
      PreparedFrame(files, c, id, proc.job.app, proc.job.env);
    }
  }

  /** A commit invalidates what the others have loaded of its namespace by moving the version,
      and leaves what they have loaded of other namespaces alone. */
  lemma ExactAcrossCommit(s: Sys, peeked: Option<(string, string)>, a: Action, q: Pid)
    requires Contained(s) && AllExact(s, peeked) && PeekOk(s, peeked) && Commits(s, a) && q in s.procs && q != a.pid
    ensures Exact(Apply(s, a).committed, None, s.procs[q])
  {
    var pc, proc := s.procs[a.pid].pc, s.procs[q];
    ContainedCommit(s, a);
    HolderCommit(s, a.pid);
    assert Exact(s.committed, peeked, proc);
    assert ProcOk(LoadManifest(s.files).value, proc);
    assert !HoldsExclusive(proc.pc);
    if proc.pc.Decrypted? || proc.pc.Ready? {
      AdmittedMoves(s, a.pid);
      assert Exact(s.committed, Some((pc.c.app, pc.c.env)), proc);
      ExactStable(s.committed, pc.c, pc.cipher.id, proc);
    }
  }

  /** A commit that has passed the version check is for a newer version than the committed one. */
  lemma AdmittedMoves(s: Sys, p: Pid)
    requires Contained(s) && p in s.procs && (s.procs[p].pc.BundleDone? || s.procs[p].pc.OriginsDone?)
    ensures s.procs[p].pc.c.meta.version > Number(s.committed, s.procs[p].pc.c.app, s.procs[p].pc.c.env)
  {
    assert ProcOk(LoadManifest(s.files).value, s.procs[p]);
  }

  lemma ExactCommit(s: Sys, peeked: Option<(string, string)>, a: Action)
    requires Contained(s) && AllExact(s, peeked) && PeekOk(s, peeked) && Commits(s, a)
    ensures AllExact(Apply(s, a), None) && PeekOk(Apply(s, a), None) && Next(s, peeked, a) == None
  {
    var t := Apply(s, a);
    HolderHoldsLock(s, a.pid);
    CommitStep(s, a);
    assert Window(t) == None;
    forall q | q in t.procs
      ensures Exact(t.committed, None, t.procs[q])
    {
      if q != a.pid {
        ExactAcrossCommit(s, peeked, a, q);
      }
    }
  }

  /** Running the same operation alone on a store with the same view has the same effect. */
  lemma SerialMutate(files: FileMap, c: Commit, id: nat, d: Disk, job: Job)
    requires Sound(files) && Sound(d.files) && SameView(files, d.files)
    requires job.Mutate? && CheckJob(job).None? && Prepared(files, job) == Ok(c)
    ensures var r := RunJob(d, job, NO_FAULTS);
      r.error.None? && Sound(r.disk.files) && SameView(Committed(files, c, CipherFor(c, id)), r.disk.files)
  {
    assert EntryAt(files, job.app, job.env) == EntryAt(d.files, job.app, job.env);
    PreparedByView(files, d.files, job);
    PreparedShape(files, job);
    PreparedShape(d.files, job);
    var c' := Prepared(d.files, job).value;
    CommitSucceeds(d, c', false);
    SameCommit(files, c, id, d, c');
  }

  lemma SerialInit(files: FileMap, id: nat, d: Disk, job: Job)
    requires Sound(files) && Sound(d.files) && SameView(files, d.files)
    requires job.Init? && CheckJob(job).None? && FindEntry(files, job.app, job.env).Err?
    ensures var r := RunJob(d, job, NO_FAULTS);
      var c := InitCommit(job);
      r.error.None? && Sound(r.disk.files) && SameView(Committed(files, c, CipherFor(c, id)), r.disk.files)
  {
    var c := InitCommit(job);
    InitShape(job);
    assert EntryAt(files, job.app, job.env) == EntryAt(d.files, job.app, job.env);
    EntryOf(files, job.app, job.env);
    EntryOf(d.files, job.app, job.env);
    CommitSucceeds(d, c, true);
    NoOrphanOrigins(files, job.app, job.env);
    NoOrphanOrigins(d.files, job.app, job.env);
    SameCommit(files, c, id, d, c);
  }

  lemma SameCommit(files: FileMap, c: Commit, id: nat, d: Disk, c': Commit)
    requires Sound(files) && Sound(d.files) && SameView(files, d.files)
    requires CommitShape(c) && CommitShape(c') && c' == c.(meta := c.meta.(sha := c'.meta.sha))
    requires LoadOrigins(files, c.app, c.env) == LoadOrigins(d.files, c.app, c.env) || EntryAt(files, c.app, c.env).Some?
    ensures Sound(Committed(d.files, c', CipherFor(c', d.nextId)))
    ensures SameView(Committed(files, c, CipherFor(c, id)), Committed(d.files, c', CipherFor(c', d.nextId)))
  {
    CommittedSound(d.files, c', d.nextId);
    assert EntryAt(files, c.app, c.env) == EntryAt(d.files, c.app, c.env);
    assert NewEntry(files, c) == NewEntry(d.files, c');
    forall app, env
      ensures EntryAt(Committed(files, c, CipherFor(c, id)), app, env)
           == EntryAt(Committed(d.files, c', CipherFor(c', d.nextId)), app, env)
    {
      CommittedView(files, c, id, app, env);
      CommittedView(d.files, c', d.nextId, app, env);
      assert EntryAt(files, app, env) == EntryAt(d.files, app, env);
    }
  }

  lemma ReplaySnoc(d: Disk, log: seq<Event>, e: Event)
    requires ReplaySucceeds(d, log) && !e.job.Read?
    requires RunJob(Replay(d, log), e.job, NO_FAULTS).error.None?
    ensures Replay(d, log + [e]) == RunJob(Replay(d, log), e.job, NO_FAULTS).disk
    ensures ReplaySucceeds(d, log + [e])
  {
    var l := log + [e];
    assert l[..|l| - 1] == log;
    forall i | 0 <= i < |l|
      ensures !l[i].job.Read? && RunJob(Replay(d, l[..i]), l[i].job, NO_FAULTS).error.None?
    {
      if i < |log| {
        assert l[..i] == log[..i];
      }
    }
  }

  lemma SerialCommit(d: Disk, s: Sys, peeked: Option<(string, string)>, a: Action)
    requires Quiet(d, s, peeked) && Commits(s, a)
    ensures Serial(d, Apply(s, a))
  {
    var t := Apply(s, a);
    var pc, job := s.procs[a.pid].pc, s.procs[a.pid].job;
    CommitStep(s, a);
    ContainedCommit(s, a);
    assert Exact(s.committed, peeked, s.procs[a.pid]);
    if job.Mutate? {
      SerialMutate(s.committed, pc.c, pc.cipher.id, Replay(d, s.log), job);
    } else {
      SerialInit(s.committed, pc.cipher.id, Replay(d, s.log), job);
    }
    ReplaySnoc(d, s.log, Event(a.pid, job, pc.c.meta.version));
  }

  // ---- whole runs -------------------------------------------------------------------------------------

  lemma QuietAfter(d: Disk, s: Sys, peeked: Option<(string, string)>, a: Action)
    requires Quiet(d, s, peeked) && QuietStep(s, peeked, a)
    ensures Quiet(d, Apply(s, a), Next(s, peeked, a))
  {
    ContainedStep(s, a);
    BasicStep(s, a);
    if a.Spawn? {
      QuietSpawn(s, peeked, a);
    } else if a.pid in s.procs {
      if Commits(s, a) {
        ExactCommit(s, peeked, a);
        SerialCommit(d, s, peeked, a);
      } else if HoldsExclusive(s.procs[a.pid].pc) {
        ExactHolder(s, peeked, a);
      } else {
        ExactOutside(s, peeked, a);
      }
    }
  }

  lemma QuietSpawn(s: Sys, peeked: Option<(string, string)>, a: Action)
    requires Contained(s) && AllExact(s, peeked) && PeekOk(s, peeked) && a.Spawn?
    ensures AllExact(Apply(s, a), Next(s, peeked, a)) && PeekOk(Apply(s, a), Next(s, peeked, a))
  {
  }

  lemma {:induction false} RunQuiet(s: Sys, run: seq<Action>)
    requires Start(s) && Sound(s.files) && QuietRun(s, run)
    ensures Quiet(Disk(s.files, s.nextId), Exec(s, run), Peeked(s, run))
  {
    StartBasic(s);
    if run != [] {
      var n := |run| - 1;
      assert forall i :: 0 <= i < n ==> run[..n][..i] == run[..i];
      RunQuiet(s, run[..n]);
      assert QuietStep(Exec(s, run[..n]), Peeked(s, run[..n]), run[n]);
      QuietAfter(Disk(s.files, s.nextId), Exec(s, run[..n]), Peeked(s, run[..n]), run[n]);
    }
  }

  /** Serialisability. In every quiet interleaving of any number of processes, running the
      successful operations one after another, alone, in the order of their commits, succeeds at
      every step and gives the same store: the same entries, recipients, versions, plaintexts and
      origins in every namespace. */
  lemma {:induction false} Serialisable(s: Sys, run: seq<Action>)
    requires Start(s) && Sound(s.files) && QuietRun(s, run)
    ensures var t, d := Exec(s, run), Disk(s.files, s.nextId);
      && ReplaySucceeds(d, t.log)
      && SameView(t.committed, Replay(d, t.log).files)
      && (t.lock.exclusive.None? ==> t.files == t.committed)
  {
    RunQuiet(s, run);
  }

  /** What a commit in a quiet run publishes is what its operation prepares from the committed files. */
  lemma {:induction false} CommitsWhatIsPrepared(s: Sys, run: seq<Action>, p: Pid)
    requires Start(s) && Sound(s.files) && QuietRun(s, run) && Commits(Exec(s, run), Step(p, false))
    requires Exec(s, run).procs[p].job.Mutate?
    ensures var x := Exec(s, run);
      && Sound(x.committed) && LoadManifest(x.committed) == LoadManifest(x.files)
      && Prepared(x.committed, x.procs[p].job) == Ok(x.procs[p].pc.c)
  {
    RunQuiet(s, run);
    assert Exact(Exec(s, run).committed, Peeked(s, run), Exec(s, run).procs[p]);
  }

  lemma {:induction false} ReplayQuiescent(d: Disk, log: seq<Event>)
    requires Quiescent(d.files)
    ensures Quiescent(Replay(d, log).files)
  {
    if log != [] {
      ReplayQuiescent(d, log[..|log| - 1]);
      var e := log[|log| - 1];
      if !e.job.Read? {
        RunJobQuiescent(Replay(d, log[..|log| - 1]), e.job, NO_FAULTS);
      }
    }
  }

  /** And whenever nobody holds the exclusive lock the full invariant holds, including that no
      origins file names a key its bundle does not hold. */
  lemma {:induction false} QuietRunsStayQuiescent(s: Sys, run: seq<Action>)
    requires Start(s) && Quiescent(s.files) && QuietRun(s, run)
    requires Exec(s, run).lock.exclusive.None?
    ensures Quiescent(Exec(s, run).files)
  {
    var t, d := Exec(s, run), Disk(s.files, s.nextId);
    RunQuiet(s, run);
    ReplayQuiescent(d, t.log);
    QuiescentByView(t.committed, Replay(d, t.log).files);
  }

  // ---- runs in which no commit fails after its bundle write -------------------------------------------

  ghost predicate NobodyUndoes(s: Sys) {
    forall p :: p in s.procs ==> !s.procs[p].pc.UndoBundle? && !s.procs[p].pc.UndoOrigins?
  }

  lemma NobodyUndoesStep(s: Sys, a: Action)
    requires NobodyUndoes(s) && !FailsAfterWrite(s, a)
    ensures NobodyUndoes(Apply(s, a))
  {
  }

  lemma CleanStepIsQuiet(s: Sys, peeked: Option<(string, string)>, a: Action)
    requires NobodyUndoes(s) && !FailsAfterWrite(s, a)
    ensures QuietStep(s, peeked, a)
  {
  }

  lemma QuietSnoc(s: Sys, run: seq<Action>)
    requires run != [] && QuietRun(s, run[..|run| - 1])
    requires QuietStep(Exec(s, run[..|run| - 1]), Peeked(s, run[..|run| - 1]), run[|run| - 1])
    ensures QuietRun(s, run)
  {
    var n := |run| - 1;
    forall i | 0 <= i < |run|
      ensures QuietStep(Exec(s, run[..i]), Peeked(s, run[..i]), run[i])
    {
      if i < n {
        assert run[..n][..i] == run[..i] && run[..n][i] == run[i];
      }
    }
  }

  /** Such runs are quiet, whoever reads when. */
  lemma {:induction false} CleanIsQuiet(s: Sys, run: seq<Action>)
    requires Start(s) && CleanRun(s, run)
    ensures QuietRun(s, run) && NobodyUndoes(Exec(s, run))
  {
    if run != [] {
      var n := |run| - 1;
      assert forall i :: 0 <= i < n ==> run[..n][..i] == run[..i];
      CleanIsQuiet(s, run[..n]);
      assert !FailsAfterWrite(Exec(s, run[..n]), run[n]);
      NobodyUndoesStep(Exec(s, run[..n]), run[n]);
      CleanStepIsQuiet(Exec(s, run[..n]), Peeked(s, run[..n]), run[n]);
      QuietSnoc(s, run);
    }
  }
}
