/** A recipient operation whose manifest write fails: the manifest keeps naming the old hash, the
    new bundle stays on disk, and only a process that had already loaded the entry can repair it. */
module ProtocolBroken {
  import opened Strings
  import opened Validate
  import opened Files
  import opened Edits
  import opened Transactions
  import opened StoreLaws
  import opened StoreOutcomes
  import opened Protocol
  import opened ProtocolBasic
  import opened ProtocolHashes
  import opened ProtocolSound
  import opened ProtocolSolo
  import opened ProtocolStuck
  import Dotenv

  /** The last write of a recipient operation fails. */
  predicate ManifestFails(s: Sys, a: Action) {
    && a.Step? && a.fail && a.pid in s.procs && s.procs[a.pid].job.Mutate?
    && s.procs[a.pid].pc.BundleDone? && s.procs[a.pid].pc.c.origins.None?
  }

  predicate Concerned(job: Job, app: string, env: string) {
    job.app == app && job.env == env
  }

  /** The processes that had loaded their entry, or ended, before. */
  function AlreadyLoaded(s: Sys): set<Pid> {
    set p | p in s.procs && !s.procs[p].pc.Idle? && !s.procs[p].pc.SharedHeld?
  }

  /** The bundle a process will put back if it has to roll back. */
  function Prior(pc: Pc): Option<Content> {
    match pc
    case Checked(_, _, b, _) => b
    case BundleDone(_, _, _, b, _) => b
    case OriginsDone(_, _, _, b, _) => b
    case UndoBundle(_, b, _) => b
    case _ => None
  }

  /** A process that has loaded the entry since, or has yet to load it. */
  ghost predicate Blind(proc: Proc, app: string, env: string, sha: Sha) {
    Concerned(proc.job, app, env) ==>
      match proc.pc
      case Idle => true
      case SharedHeld => true
      case Loaded(meta) => meta.sha == sha
      case Failed => true
      case ExclusiveHeld(_) => proc.job.Init?
      case _ => false
  }

  ghost predicate BlindUnless(s: Sys, app: string, env: string, sha: Sha, before: set<Pid>) {
    forall p :: p in s.procs && p !in before ==> Blind(s.procs[p], app, env, sha)
  }

  /** No copy of the bundle the manifest names is left, on disk or in a snapshot. */
  ghost predicate Lost(s: Sys, app: string, env: string, sha: Sha) {
    && sha.ShaOf? && Snapshot(s.files, BundlePath(app, env)) != Some(sha.content)
    && forall p :: p in s.procs && Concerned(s.procs[p].job, app, env) ==> Prior(s.procs[p].pc) != Some(sha.content)
  }

  ghost predicate Broken(s: Sys, app: string, env: string, sha: Sha, before: set<Pid>) {
    && ValidName(app) && ValidName(env) && Settled(s, sha) && ShaAt(s.files, app, env) == sha
    && Lost(s, app, env, sha) && BlindUnless(s, app, env, sha, before)
  }

  // ---- one step -----------------------------------------------------------------------------------

  /** A holder's own step: what it may put at its bundle's path, and what it keeps for a rollback. */
  lemma HolderLoses(s: Sys, a: Action, app: string, env: string, sha: Sha)
    requires Basic(s) && a.Step? && a.pid in s.procs && HoldsExclusive(s.procs[a.pid].pc)
    requires Settled(s, sha) && Lost(s, app, env, sha) && ValidName(app)
    requires Concerned(s.procs[a.pid].job, app, env) && !Commits(s, a)
    ensures Snapshot(Apply(s, a).files, BundlePath(app, env)) != Some(sha.content)
    ensures Prior(Apply(s, a).procs[a.pid].pc) != Some(sha.content)
  {
    HolderCommit(s, a.pid);
    PathsDistinct(app, env, app, env);
    assert a == Step(a.pid, a.fail);
    if s.procs[a.pid].pc.ExclusiveHeld? || s.procs[a.pid].pc.Checked? {
      BeginningLoses(s, a.pid, a.fail, app, env, sha);
    } else if s.procs[a.pid].pc.UndoBundle? || s.procs[a.pid].pc.UndoOrigins? {
      UndoingLoses(s, a.pid, a.fail, app, env, sha);
    } else {
      WritingLoses(s, a.pid, a.fail, app, env, sha);
    }
  }

  lemma BeginningLoses(s: Sys, p: Pid, fail: bool, app: string, env: string, sha: Sha)
    requires p in s.procs && (s.procs[p].pc.ExclusiveHeld? || s.procs[p].pc.Checked?)
    requires s.procs[p].pc.c.meta.file == BundlePath(app, env) && PastSha(sha, s.nextId)
    requires Snapshot(s.files, BundlePath(app, env)) != Some(sha.content) && Prior(s.procs[p].pc) != Some(sha.content)
    ensures Snapshot(Apply(s, Step(p, fail)).files, BundlePath(app, env)) != Some(sha.content)
    ensures Prior(Apply(s, Step(p, fail)).procs[p].pc) != Some(sha.content)
  {
  }

  lemma UndoingLoses(s: Sys, p: Pid, fail: bool, app: string, env: string, sha: Sha)
    requires p in s.procs && (s.procs[p].pc.UndoBundle? || s.procs[p].pc.UndoOrigins?) && sha.ShaOf?
    requires s.procs[p].pc.c.meta.file == BundlePath(app, env)
    requires OriginsPath(s.procs[p].pc.c.app, s.procs[p].pc.c.env) != BundlePath(app, env)
    requires Snapshot(s.files, BundlePath(app, env)) != Some(sha.content) && Prior(s.procs[p].pc) != Some(sha.content)
    ensures Snapshot(Apply(s, Step(p, fail)).files, BundlePath(app, env)) != Some(sha.content)
    ensures Prior(Apply(s, Step(p, fail)).procs[p].pc) != Some(sha.content)
  {
  }

  lemma WritingLoses(s: Sys, p: Pid, fail: bool, app: string, env: string, sha: Sha)
    requires p in s.procs && Writing(s.procs[p].pc) && !Commits(s, Step(p, fail)) && sha.ShaOf?
    requires OriginsPath(s.procs[p].pc.c.app, s.procs[p].pc.c.env) != BundlePath(app, env)
    requires Snapshot(s.files, BundlePath(app, env)) != Some(sha.content) && Prior(s.procs[p].pc) != Some(sha.content)
    ensures Snapshot(Apply(s, Step(p, fail)).files, BundlePath(app, env)) != Some(sha.content)
    ensures Prior(Apply(s, Step(p, fail)).procs[p].pc) != Some(sha.content)
  {
  }

  lemma NoPriorOutside(s: Sys, a: Action)
    requires a.Step? && a.pid in s.procs && !HoldsExclusive(s.procs[a.pid].pc)
    ensures Prior(Apply(s, a).procs[a.pid].pc) == None
  {
    OutsideEffect(s, a);
    OutsideNotWriting(s, a.pid, a.fail);
    OutsideNotUndoing(s, a.pid, a.fail);
  }

  lemma OutsideNotUndoing(s: Sys, p: Pid, fail: bool)
    requires p in s.procs && !HoldsExclusive(s.procs[p].pc)
    ensures !Apply(s, Step(p, fail)).procs[p].pc.Checked? && !Apply(s, Step(p, fail)).procs[p].pc.UndoBundle?
  {
  }

  lemma LostOthers(s: Sys, t: Sys, p: Pid, app: string, env: string, sha: Sha)
    requires Lost(s, app, env, sha) && OnlyMoves(s, t, p)
    requires Snapshot(t.files, BundlePath(app, env)) != Some(sha.content)
    requires Concerned(s.procs[p].job, app, env) ==> Prior(t.procs[p].pc) != Some(sha.content)
    ensures Lost(t, app, env, sha)
  {
    assert forall q :: q in t.procs && q != p ==> t.procs[q] == s.procs[q];
  }

  lemma LostStep(s: Sys, a: Action, app: string, env: string, sha: Sha)
    requires Basic(s) && ValidName(app) && ValidName(env) && Settled(s, sha) && Lost(s, app, env, sha)
    requires Commits(s, a) ==> !Concerned(s.procs[a.pid].job, app, env)
    ensures Lost(Apply(s, a), app, env, sha)
  {
    if a.Spawn? || a.pid !in s.procs {
      LostSpawn(s, a, app, env, sha);
    } else if !HoldsExclusive(s.procs[a.pid].pc) {
      OutsideEffect(s, a);
      NoPriorOutside(s, a);
      LostOthers(s, Apply(s, a), a.pid, app, env, sha);
    } else if Concerned(s.procs[a.pid].job, app, env) {
      HolderLoses(s, a, app, env, sha);
      LostOthers(s, Apply(s, a), a.pid, app, env, sha);
    } else {
      HolderFrame(s, a, app, env);
      LostOthers(s, Apply(s, a), a.pid, app, env, sha);
    }
  }

  lemma LostSpawn(s: Sys, a: Action, app: string, env: string, sha: Sha)
    requires Lost(s, app, env, sha) && (a.Spawn? || a.pid !in s.procs)
    ensures Lost(Apply(s, a), app, env, sha)
  {
  }

  /** A later process that loads the entry fails on its hash; an Init is refused. */
  lemma BlindOwn(s: Sys, p: Pid, fail: bool, app: string, env: string, sha: Sha)
    requires Basic(s) && p in s.procs && Blind(s.procs[p], app, env, sha)
    requires sha != NoSha && ShaAt(s.files, app, env) == sha && Lost(s, app, env, sha)
    ensures Blind(Apply(s, Step(p, fail)).procs[p], app, env, sha)
  {
    var pc := s.procs[p].pc;
    if Concerned(s.procs[p].job, app, env) {
      assert ProcOk(LoadManifest(s.files).value, s.procs[p]);
      match pc
      case Idle => assert Apply(s, Step(p, fail)) == StepIdle(s, p, fail);
      case SharedHeld => assert Apply(s, Step(p, fail)) == StepShared(s, p, fail);
      case Loaded(meta) => assert Apply(s, Step(p, fail)) == StepHash(s, p, meta, fail);
      case ExclusiveHeld(c) => assert Apply(s, Step(p, fail)) == StepCheck(s, p, c, fail);
      case Failed => assert Apply(s, Step(p, fail)) == s;
    }
  }

  lemma BlindOthers(s: Sys, t: Sys, p: Pid, app: string, env: string, sha: Sha, before: set<Pid>)
    requires BlindUnless(s, app, env, sha, before) && OnlyMoves(s, t, p)
    requires p !in before ==> Blind(t.procs[p], app, env, sha)
    ensures BlindUnless(t, app, env, sha, before)
  {
    assert forall q :: q in t.procs && q != p ==> t.procs[q] == s.procs[q];
  }

  lemma BlindSpawn(s: Sys, a: Action, app: string, env: string, sha: Sha, before: set<Pid>)
    requires BlindUnless(s, app, env, sha, before) && (a.Spawn? || a.pid !in s.procs)
    ensures BlindUnless(Apply(s, a), app, env, sha, before)
  {
  }

  /** Whoever commits had loaded the entry before the failure. */
  lemma RepairerLoaded(s: Sys, a: Action, app: string, env: string, sha: Sha, before: set<Pid>)
    requires Basic(s) && BlindUnless(s, app, env, sha, before)
    requires Commits(s, a) && Concerned(s.procs[a.pid].job, app, env)
    ensures a.pid in before
    ensures Apply(s, a).log == s.log + [Event(a.pid, s.procs[a.pid].job, s.procs[a.pid].pc.c.meta.version)]
  {
    CommitStep(s, a);
  }

  lemma BrokenStep(s: Sys, a: Action, app: string, env: string, sha: Sha, before: set<Pid>)
    requires Basic(s) && Broken(s, app, env, sha, before)
    requires Commits(s, a) ==> !Concerned(s.procs[a.pid].job, app, env)
    ensures Broken(Apply(s, a), app, env, sha, before)
  {
    SettledStep(s, a, sha);
    LostStep(s, a, app, env, sha);
    ShaAfter(s, a, app, env);
    if Commits(s, a) {
      HolderCommit(s, a.pid);
    }
    if a.Spawn? || a.pid !in s.procs {
      BlindSpawn(s, a, app, env, sha, before);
    } else {
      if a.pid !in before {
        BlindOwn(s, a.pid, a.fail, app, env, sha);
      }
      assert a == Step(a.pid, a.fail);
      BlindOthers(s, Apply(s, a), a.pid, app, env, sha, before);
    }
  }

  // ---- every continuation -------------------------------------------------------------------------

  /** One of `before` has committed to the namespace since the log had `at` entries. */
  ghost predicate Repaired(log: seq<Event>, at: nat, app: string, env: string, before: set<Pid>) {
    exists i :: at <= i < |log| && Concerns(log[i], app, env) && log[i].pid in before
  }

  lemma RepairedGrows(log: seq<Event>, more: seq<Event>, at: nat, app: string, env: string, before: set<Pid>)
    requires Repaired(log, at, app, env, before) && |log| <= |more| && more[..|log|] == log
    ensures Repaired(more, at, app, env, before)
  {
    var i :| at <= i < |log| && Concerns(log[i], app, env) && log[i].pid in before;
    assert more[i] == more[..|log|][i];
  }

  lemma RepairingStep(x: Sys, a: Action, at: nat, app: string, env: string, sha: Sha, before: set<Pid>)
    requires Basic(x) && at <= |x.log|
    requires Broken(x, app, env, sha, before) || Repaired(x.log, at, app, env, before)
    ensures Basic(Apply(x, a)) && at <= |Apply(x, a).log|
    ensures Broken(Apply(x, a), app, env, sha, before) || Repaired(Apply(x, a).log, at, app, env, before)
  {
    BasicStep(x, a);
    LogGrows(x, a);
    if Repaired(x.log, at, app, env, before) {
      RepairedGrows(x.log, Apply(x, a).log, at, app, env, before);
    } else if Commits(x, a) && Concerned(x.procs[a.pid].job, app, env) {
      RepairerLoaded(x, a, app, env, sha, before);
      assert Concerns(Apply(x, a).log[|x.log|], app, env);
    } else {
      BrokenStep(x, a, app, env, sha, before);
    }
  }

  lemma {:induction false} RunBroken(t: Sys, more: seq<Action>, app: string, env: string, sha: Sha, before: set<Pid>)
    requires Basic(t) && Broken(t, app, env, sha, before)
    ensures Basic(Exec(t, more)) && |t.log| <= |Exec(t, more).log|
    ensures Broken(Exec(t, more), app, env, sha, before) || Repaired(Exec(t, more).log, |t.log|, app, env, before)
  {
    if more != [] {
      var n := |more| - 1;
      RunBroken(t, more[..n], app, env, sha, before);
      RepairingStep(Exec(t, more[..n]), more[n], |t.log|, app, env, sha, before);
    }
  }

  lemma FailureBreaks(x: Sys, a: Action)
    requires Basic(x) && HashesOk(x) && ManifestFails(x, a)
    requires Snapshot(x.files, x.procs[a.pid].pc.c.meta.file) == Some(Bundle(x.procs[a.pid].pc.cipher))
    requires ShaAt(x.files, x.procs[a.pid].pc.c.app, x.procs[a.pid].pc.c.env) != NoSha
    ensures var c := x.procs[a.pid].pc.c;
      Broken(Apply(x, a), c.app, c.env, ShaAt(x.files, c.app, c.env), AlreadyLoaded(Apply(x, a)))
  {
    var t, c := Apply(x, a), x.procs[a.pid].pc.c;
    var sha := ShaAt(x.files, c.app, c.env);
    HolderCommit(x, a.pid);
    assert EntrySettled(x, c.app, c.env);
    SettledStep(x, a, sha);
    assert t == StepManifestOnly(x, a.pid, x.procs[a.pid].pc, true);
    assert sha != ShaOf(Bundle(x.procs[a.pid].pc.cipher));
    forall p | p in t.procs
      ensures Prior(t.procs[p].pc) == None
    {
      if p != a.pid {
        OnlyOneHolds(x, a.pid, p);
      }
    }
  }

  /** When the manifest write of a recipient operation fails and the entry has a hash, then in
      every continuation, whoever runs and whatever fails: either a process that had already
      loaded its entry commits to the namespace, or no process that had not completes a read or
      a commit on it. */
  lemma {:induction false} OnlyLoadedRepairs(s: Sys, run: seq<Action>, a: Action, more: seq<Action>)
    requires Start(s) && Sound(s.files) && FreshIds(Disk(s.files, s.nextId)) && ManifestFails(Exec(s, run), a)
    requires var x := Exec(s, run); ShaAt(x.files, x.procs[a.pid].pc.c.app, x.procs[a.pid].pc.c.env) != NoSha
    ensures var c := Exec(s, run).procs[a.pid].pc.c;
      var t := Apply(Exec(s, run), a);
      var u := Exec(t, more);
      || Repaired(u.log, |t.log|, c.app, c.env, AlreadyLoaded(t))
      || forall p :: p in u.procs && p !in AlreadyLoaded(t) && Concerned(u.procs[p].job, c.app, c.env) ==>
           !u.procs[p].pc.ReadDone? && !u.procs[p].pc.CommitDone?
  {
    var x := Exec(s, run);
    var c, t := x.procs[a.pid].pc.c, Apply(x, a);
    RunBasic(s, run);
    RunHashed(s, run);
    RunBundleWritten(s, run);
    FailureBreaks(x, a);
    BasicStep(x, a);
    RunBroken(t, more, c.app, c.env, ShaAt(x.files, c.app, c.env), AlreadyLoaded(t));
    var u := Exec(t, more);
    if !Repaired(u.log, |t.log|, c.app, c.env, AlreadyLoaded(t)) {
      forall p | p in u.procs && p !in AlreadyLoaded(t) && Concerned(u.procs[p].job, c.app, c.env)
        ensures !u.procs[p].pc.ReadDone? && !u.procs[p].pc.CommitDone?
      {
        assert Blind(u.procs[p], c.app, c.env, ShaAt(x.files, c.app, c.env));
      }
    }
  }

  /** And such a process does repair it: one that is ready with a commit for the current version
      when nobody holds the lock commits, and every listed recipient reads its text. */
  lemma {:induction false} ReadyRepairs(t: Sys, p: Pid, c: Commit, who: string)
    requires t.lock == FREE && p in t.procs && t.procs[p].pc == Ready(c) && t.procs[p].job.Mutate?
    requires LoadManifest(t.files).Ok? && Admit(LoadManifest(t.files).value, c, false).None? && CommitShape(c)
    requires Dotenv.Parsed(c.plain).Ok? && who in c.meta.recipients
    ensures var u := Exec(t, SoloWrites([], p));
      && p in u.procs && u.procs[p].pc == CommitDone
      && ReadBundle(u.files, c.app, c.env, who) == Ok((Stamped(c, CipherFor(c, t.nextId)), c.plain))
  {
    assert t.procs == t.procs[p := Proc(t.procs[p].job, Ready(c))];
    SoloWritesPhase(t, [], t, p, t.procs[p].job, c);
    CommittedReads(t.files, c, t.nextId, who);
  }
}
