/** Runs in which every failure is contained: value commits may fail at any write, as long as
    their rollback writes succeed. The files stay sound, and a commit that was rolled back has
    changed nothing. */
module ProtocolSound {
  import opened Strings
  import opened Validate
  import opened Files
  import opened Edits
  import opened Transactions
  import opened StoreLaws
  import opened Protocol
  import opened ProtocolBasic

  /** How far the exclusive holder has got, told by the files and its snapshots. */
  ghost predicate Progress(files: FileMap, committed: FileMap, pc: Pc) {
    match pc
    case Checked(c, _, b, o) =>
      && files == committed
      && b == Snapshot(committed, c.meta.file) && o == Snapshot(committed, OriginsPath(c.app, c.env))
    case BundleDone(c, cipher, _, b, o) =>
      && files == PutBundle(committed, c, cipher)
      && b == Snapshot(committed, c.meta.file) && o == Snapshot(committed, OriginsPath(c.app, c.env))
    case OriginsDone(c, cipher, _, b, o) =>
      && files == PutOrigins(PutBundle(committed, c, cipher), c)
      && b == Snapshot(committed, c.meta.file) && o == Snapshot(committed, OriginsPath(c.app, c.env))
    case UndoBundle(c, b, o) =>
      Restore(Restore(files, c.meta.file, b), OriginsPath(c.app, c.env), o) == committed
    case UndoOrigins(c, o) =>
      Restore(files, OriginsPath(c.app, c.env), o) == committed
    case _ => files == committed
  }

  ghost predicate WindowOk(s: Sys) {
    match s.lock.exclusive
    case None => s.files == s.committed
    case Some(p) => p in s.procs && Progress(s.files, s.committed, s.procs[p].pc)
  }

  ghost predicate Contained(s: Sys) {
    && Basic(s)
    && Sound(s.committed)
    && LoadManifest(s.committed) == LoadManifest(s.files)
    && WindowOk(s)
  }

  lemma RestoreWindow(files: FileMap, c: Commit, cipher: Cipher)
    requires CommitShape(c)
    ensures var b, o := Snapshot(files, c.meta.file), Snapshot(files, OriginsPath(c.app, c.env));
      && Restore(Restore(PutBundle(files, c, cipher), c.meta.file, b), OriginsPath(c.app, c.env), o) == files
      && Restore(Restore(PutOrigins(PutBundle(files, c, cipher), c), c.meta.file, b), OriginsPath(c.app, c.env), o) == files
  {
    PathsDistinct(c.app, c.env, c.app, c.env);
  }

  lemma HolderCommit(s: Sys, p: Pid)
    requires Basic(s) && p in s.procs && HoldsExclusive(s.procs[p].pc)
    ensures s.lock == Lock({}, Some(p))
    ensures CommitOk(LoadManifest(s.files).value, s.procs[p].job, s.procs[p].pc.c)
  {
    HolderHoldsLock(s, p);
    assert ProcOk(LoadManifest(s.files).value, s.procs[p]);
  }

  /** A step by a process outside the critical section reads and never writes. */
  lemma OutsideEffect(s: Sys, a: Action)
    requires a.Step? && a.pid in s.procs && !HoldsExclusive(s.procs[a.pid].pc)
    ensures var t := Apply(s, a);
      && t.files == s.files && t.committed == s.committed && t.log == s.log
      && OnlyMoves(s, t, a.pid)
      && (t.lock.exclusive == s.lock.exclusive
          || (s.lock == FREE && t.lock.exclusive == Some(a.pid) && t.procs[a.pid].pc.ExclusiveHeld?))
  {
  }

  lemma ContainedOutside(s: Sys, a: Action)
    requires Contained(s) && a.Step? && a.pid in s.procs && !HoldsExclusive(s.procs[a.pid].pc)
    ensures Contained(Apply(s, a)) && Apply(s, a).committed == s.committed
  {
    BasicStep(s, a);
    OutsideEffect(s, a);
  }

  lemma HolderChecks(s: Sys, a: Action)
    requires Contained(s) && a.Step? && a.pid in s.procs && s.procs[a.pid].pc.ExclusiveHeld?
    ensures Contained(Apply(s, a)) && Apply(s, a).committed == s.committed
  {
    BasicStep(s, a);
    HolderHoldsLock(s, a.pid);
    assert s.files == s.committed;
    assert Apply(s, a) == StepCheck(s, a.pid, s.procs[a.pid].pc.c, a.fail);
  }

  lemma HolderReplaces(s: Sys, a: Action)
    requires Contained(s) && a.Step? && a.pid in s.procs && s.procs[a.pid].pc.Checked?
    ensures Contained(Apply(s, a)) && Apply(s, a).committed == s.committed
  {
    BasicStep(s, a);
    HolderHoldsLock(s, a.pid);
    assert Apply(s, a) == StepBundle(s, a.pid, s.procs[a.pid].pc, a.fail);
  }

  lemma HolderUndoes(s: Sys, a: Action)
    requires Contained(s) && a.Step? && a.pid in s.procs && !a.fail
    requires s.procs[a.pid].pc.UndoBundle? || s.procs[a.pid].pc.UndoOrigins?
    ensures Contained(Apply(s, a)) && Apply(s, a).committed == s.committed
  {
    BasicStep(s, a);
    HolderCommit(s, a.pid);
  }

  /** The two writes that can fail after the bundle has been replaced. */
  lemma HolderMidway(s: Sys, a: Action)
    requires Contained(s) && a.Step? && a.pid in s.procs
    requires s.procs[a.pid].pc.BundleDone? || s.procs[a.pid].pc.OriginsDone?
    requires !Commits(s, a) && !Uncontained(s, a)
    ensures Contained(Apply(s, a))
    ensures SameView(Apply(s, a).committed, s.committed)
    ensures !a.fail ==> Apply(s, a).committed == s.committed
  {
    BasicStep(s, a);
    HolderCommit(s, a.pid);
    var pc := s.procs[a.pid].pc;
    RestoreWindow(s.committed, pc.c, pc.cipher);
    if pc.c.origins.None? {
      assert ProcOk(LoadManifest(s.files).value, s.procs[a.pid]);
      OrphanBundle(s.committed, pc.c, pc.cipher);
    }
  }

  lemma ContainedHolder(s: Sys, a: Action)
    requires Contained(s) && a.Step? && a.pid in s.procs && HoldsExclusive(s.procs[a.pid].pc)
    requires !Uncontained(s, a) && !Commits(s, a)
    ensures Contained(Apply(s, a))
    ensures SameView(Apply(s, a).committed, s.committed)
    ensures !FailsAfterWrite(s, a) ==> Apply(s, a).committed == s.committed
  {
    var pc := s.procs[a.pid].pc;
    if pc.ExclusiveHeld? {
      HolderChecks(s, a);
    } else if pc.Checked? {
      HolderReplaces(s, a);
    } else if pc.UndoBundle? || pc.UndoOrigins? {
      HolderUndoes(s, a);
    } else {
      HolderMidway(s, a);
    }
  }

  /** The manifest write turns the files of the window into a committed state. */
  lemma ContainedCommit(s: Sys, a: Action)
    requires Contained(s) && Commits(s, a)
    ensures Contained(Apply(s, a))
    ensures var pc := s.procs[a.pid].pc;
      && pc.cipher == CipherFor(pc.c, pc.cipher.id)
      && Apply(s, a).committed == Committed(s.committed, pc.c, pc.cipher)
  {
    BasicStep(s, a);
    CommitStep(s, a);
    HolderCommit(s, a.pid);
    assert ProcOk(LoadManifest(s.files).value, s.procs[a.pid]);
    var pc := s.procs[a.pid].pc;
    CommittedSound(s.committed, pc.c, pc.cipher.id);
  }

  lemma ContainedSpawn(s: Sys, a: Action)
    requires Contained(s) && a.Spawn?
    ensures Contained(Apply(s, a)) && Apply(s, a).committed == s.committed
  {
    BasicStep(s, a);
  }

  lemma ContainedStep(s: Sys, a: Action)
    requires Contained(s) && !Uncontained(s, a)
    ensures Contained(Apply(s, a))
    ensures !Commits(s, a) ==> SameView(Apply(s, a).committed, s.committed)
    ensures !Commits(s, a) && !FailsAfterWrite(s, a) ==> Apply(s, a).committed == s.committed
  {
    if a.Spawn? {
      ContainedSpawn(s, a);
    } else if a.pid in s.procs {
      if Commits(s, a) {
        ContainedCommit(s, a);
      } else if HoldsExclusive(s.procs[a.pid].pc) {
        ContainedHolder(s, a);
      } else {
        ContainedOutside(s, a);
      }
    }
  }

  lemma {:induction false} RunContained(s: Sys, run: seq<Action>)
    requires Start(s) && Sound(s.files) && ContainedRun(s, run)
    ensures Contained(Exec(s, run))
  {
    StartBasic(s);
    if run != [] {
      var n := |run| - 1;
      assert forall i :: 0 <= i < n ==> run[..n][..i] == run[..i];
      RunContained(s, run[..n]);
      ContainedStep(Exec(s, run[..n]), run[n]);
    }
  }

  // ---- the frame --------------------------------------------------------------------------------------

  /** The exclusive holder writes its own two data files and, when it commits, the manifest. */
  lemma HolderWritesOwn(s: Sys, a: Action, path: string)
    requires a.Step? && a.pid in s.procs && HoldsExclusive(s.procs[a.pid].pc)
    requires var c := s.procs[a.pid].pc.c;
      path != c.meta.file && path != OriginsPath(c.app, c.env) && path != MANIFEST_PATH
    ensures Snapshot(Apply(s, a).files, path) == Snapshot(s.files, path)
  {
  }

  ghost predicate NamespaceKept(before: FileMap, after: FileMap, app: string, env: string) {
    && FindEntry(after, app, env) == FindEntry(before, app, env)
    && Snapshot(after, BundlePath(app, env)) == Snapshot(before, BundlePath(app, env))
    && Snapshot(after, OriginsPath(app, env)) == Snapshot(before, OriginsPath(app, env))
  }

  lemma HolderFrame(s: Sys, a: Action, app: string, env: string)
    requires Basic(s) && ValidName(app) && ValidName(env)
    requires a.Step? && a.pid in s.procs && HoldsExclusive(s.procs[a.pid].pc)
    requires s.procs[a.pid].job.app != app || s.procs[a.pid].job.env != env
    ensures NamespaceKept(s.files, Apply(s, a).files, app, env)
  {
    HolderCommit(s, a.pid);
    BasicStep(s, a);
    var pc := s.procs[a.pid].pc;
    var c := pc.c;
    PathsDistinct(c.app, c.env, app, env);
    PathsDistinct(app, env, c.app, c.env);
    HolderWritesOwn(s, a, BundlePath(app, env));
    HolderWritesOwn(s, a, OriginsPath(app, env));
    if Commits(s, a) {
      CommitStep(s, a);
      MergeIntoFrame(LoadManifest(s.files).value, c.app, c.env, Stamped(c, pc.cipher), app, env);
    }
  }

  /** In every run, whatever fails, no step of a process touches another namespace's manifest
      entry, bundle or origins file, however old the manifest the process has loaded. */
  lemma OtherNamespacesUntouched(s: Sys, run: seq<Action>, a: Action, app: string, env: string)
    requires Start(s) && Sound(s.files) && ValidName(app) && ValidName(env)
    requires a.Step? && a.pid in Exec(s, run).procs ==>
      Exec(s, run).procs[a.pid].job.app != app || Exec(s, run).procs[a.pid].job.env != env
    ensures NamespaceKept(Exec(s, run).files, Apply(Exec(s, run), a).files, app, env)
  {
    RunBasic(s, run);
    var x := Exec(s, run);
    if a.Step? && a.pid in x.procs {
      if HoldsExclusive(x.procs[a.pid].pc) {
        HolderFrame(x, a, app, env);
      } else {
        OutsideEffect(x, a);
      }
    }
  }

  /** Whenever nobody holds the exclusive lock, every manifest entry agrees with its bundle: the
      hash matches, the bundle is addressed to exactly the listed recipients, which are valid and
      strictly sorted, and its plaintext is a printed map. Any number of commits may have failed
      and been rolled back. */
  lemma {:induction false} FilesStaySound(s: Sys, run: seq<Action>)
    requires Start(s) && Sound(s.files) && ContainedRun(s, run)
    requires Exec(s, run).lock.exclusive.None?
    ensures Sound(Exec(s, run).files)
  {
    RunContained(s, run);
  }

  // ---- rollback ---------------------------------------------------------------------------------------

  /** The step by which `p` takes the exclusive lock. */
  predicate TakesLock(s: Sys, a: Action, p: Pid) {
    && a.Step? && a.pid == p && p in s.procs && !HoldsExclusive(s.procs[p].pc)
    && HoldsExclusive(Apply(s, a).procs[p].pc)
  }

  predicate Holds(s: Sys, p: Pid) {
    p in s.procs && HoldsExclusive(s.procs[p].pc)
  }

  /** `run[i]` took the lock and `p` has kept it up to the end of the run. */
  ghost predicate HeldSince(s: Sys, run: seq<Action>, i: nat, p: Pid)
    requires i < |run|
  {
    var n := |run| - 1;
    && Holds(Exec(s, run), p)
    && if i == n then TakesLock(Exec(s, run[..n]), run[n], p) else HeldSince(s, run[..n], i, p)
  }

  lemma LockWasFree(s: Sys, t: Sys, p: Pid)
    requires LockOk(s) && LockOk(t) && p in s.procs && p in t.procs
    requires !HoldsExclusive(s.procs[p].pc) && HoldsExclusive(t.procs[p].pc)
    requires t.lock.exclusive == s.lock.exclusive || s.lock == FREE
    ensures s.lock == FREE
  {
    assert s.lock.exclusive != Some(p) && t.lock.exclusive == Some(p);
  }

  lemma TakingLeavesFiles(s: Sys, a: Action, p: Pid)
    requires Contained(s) && TakesLock(s, a, p)
    ensures s.files == s.committed && Apply(s, a).committed == s.committed
  {
    OutsideEffect(s, a);
    BasicStep(s, a);
    LockWasFree(s, Apply(s, a), p);
  }

  lemma OwnStepKeepsCommitted(s: Sys, p: Pid, fail: bool)
    requires p in s.procs && HoldsExclusive(s.procs[p].pc)
    requires HoldsExclusive(Apply(s, Step(p, fail)).procs[p].pc)
    ensures Apply(s, Step(p, fail)).committed == s.committed
  {
  }

  lemma OnlyOneHolds(s: Sys, p: Pid, q: Pid)
    requires LockOk(s) && p in s.procs && q in s.procs && p != q && HoldsExclusive(s.procs[p].pc)
    ensures !HoldsExclusive(s.procs[q].pc)
  {
    HolderHoldsLock(s, p);
  }

  /** While one process keeps the exclusive lock, nobody moves the committed files. */
  lemma HoldingKeepsCommitted(s: Sys, a: Action, p: Pid)
    requires Basic(s) && p in s.procs && HoldsExclusive(s.procs[p].pc)
    requires p in Apply(s, a).procs && HoldsExclusive(Apply(s, a).procs[p].pc)
    ensures Apply(s, a).committed == s.committed
  {
    if a == Step(p, a.Step? && a.fail) {
      OwnStepKeepsCommitted(s, p, a.fail);
    } else if a.Step? && a.pid in s.procs {
      OnlyOneHolds(s, p, a.pid);
      OutsideEffect(s, a);
    }
  }

  lemma ContainedPrefix(s: Sys, run: seq<Action>)
    requires ContainedRun(s, run) && run != []
    ensures ContainedRun(s, run[..|run| - 1])
  {
    assert forall j :: 0 <= j < |run| - 1 ==> run[..|run| - 1][..j] == run[..j];
  }

  lemma HeldStep(x: Sys, a: Action, p: Pid, files: FileMap)
    requires Basic(x) && Holds(x, p) && Holds(Apply(x, a), p) && x.committed == files
    ensures Apply(x, a).committed == files
  {
    HoldingKeepsCommitted(x, a, p);
  }

  lemma {:induction false} HeldCommitted(s: Sys, run: seq<Action>, i: nat, p: Pid)
    requires Start(s) && Sound(s.files) && ContainedRun(s, run) && i < |run| && HeldSince(s, run, i, p)
    ensures Exec(s, run).committed == Exec(s, run[..i]).files
  {
    var n := |run| - 1;
    ContainedPrefix(s, run);
    if i == n {
      RunContained(s, run[..n]);
      TakingLeavesFiles(Exec(s, run[..n]), run[n], p);
    } else {
      HeldCommitted(s, run[..n], i, p);
      RunBasic(s, run[..n]);
      assert run[..n][..i] == run[..i];
      HeldStep(Exec(s, run[..n]), run[n], p, Exec(s, run[..i]).files);
    }
  }

  /** A commit that fails at any write and is rolled back leaves every file as it was when it took
      the lock. */
  lemma {:induction false} RollbackIsExact(s: Sys, run: seq<Action>, i: nat, p: Pid)
    requires Start(s) && Sound(s.files) && ContainedRun(s, run) && i < |run| && HeldSince(s, run, i, p)
    requires Exec(s, run).procs[p].pc.UndoOrigins?
    ensures Apply(Exec(s, run), Step(p, false)).files == Exec(s, run[..i]).files
    ensures Apply(Exec(s, run), Step(p, false)).committed == Exec(s, run[..i]).files
  {
    RunContained(s, run);
    HolderHoldsLock(Exec(s, run), p);
    HeldCommitted(s, run, i, p);
  }
}
