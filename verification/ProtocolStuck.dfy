/** A committed map that cannot be parsed again: no continuation of the run recovers it. */
module ProtocolStuck {
  import opened Strings
  import opened Validate
  import opened Files
  import opened Edits
  import opened Transactions
  import opened StoreLaws
  import opened Protocol
  import opened ProtocolBasic
  import opened ProtocolHashes
  import opened ProtocolSound
  import Dotenv
  import DotenvLaws

  /** The bundle of a commit under way is on disk. */
  ghost predicate BundleWritten(s: Sys) {
    forall p :: p in s.procs && (s.procs[p].pc.BundleDone? || s.procs[p].pc.OriginsDone?) ==>
      Snapshot(s.files, s.procs[p].pc.c.meta.file) == Some(Bundle(s.procs[p].pc.cipher))
  }

  lemma BundleWrittenMove(s: Sys, t: Sys, p: Pid)
    requires LockOk(s) && p in s.procs && HoldsExclusive(s.procs[p].pc) && OnlyMoves(s, t, p)
    requires t.procs[p].pc.BundleDone? || t.procs[p].pc.OriginsDone? ==>
      Snapshot(t.files, t.procs[p].pc.c.meta.file) == Some(Bundle(t.procs[p].pc.cipher))
    ensures BundleWritten(t)
  {
    HolderHoldsLock(s, p);
    forall q | q in t.procs && q != p
      ensures !t.procs[q].pc.BundleDone? && !t.procs[q].pc.OriginsDone?
    {
      assert t.procs[q] == s.procs[q] && !HoldsExclusive(s.procs[q].pc);
    }
  }

  lemma BundleWriteStored(s: Sys, p: Pid, fail: bool)
    requires p in s.procs && s.procs[p].pc.Checked?
    ensures var pc := StepBundle(s, p, s.procs[p].pc, fail).procs[p].pc;
      && !pc.OriginsDone?
      && (pc.BundleDone? ==>
            Snapshot(StepBundle(s, p, s.procs[p].pc, fail).files, pc.c.meta.file) == Some(Bundle(pc.cipher)))
  {
  }

  lemma OriginsWriteKeepsBundle(s: Sys, p: Pid, fail: bool)
    requires p in s.procs && s.procs[p].pc.BundleDone? && s.procs[p].pc.c.origins.Some?
    requires var c := s.procs[p].pc.c; c.meta.file != OriginsPath(c.app, c.env)
    requires Snapshot(s.files, s.procs[p].pc.c.meta.file) == Some(Bundle(s.procs[p].pc.cipher))
    ensures var pc := StepOrigins(s, p, s.procs[p].pc, fail).procs[p].pc;
      && !pc.BundleDone?
      && (pc.OriginsDone? ==>
            Snapshot(StepOrigins(s, p, s.procs[p].pc, fail).files, pc.c.meta.file) == Some(Bundle(pc.cipher)))
  {
  }

  lemma OtherHolderSteps(s: Sys, a: Action)
    requires a.Step? && a.pid in s.procs && HoldsExclusive(s.procs[a.pid].pc)
    requires var pc := s.procs[a.pid].pc; !pc.Checked? && (pc.BundleDone? ==> pc.c.origins.None?)
    ensures var pc := Apply(s, a).procs[a.pid].pc; !pc.BundleDone? && !pc.OriginsDone?
  {
  }

  lemma BundleWrittenHolder(s: Sys, a: Action)
    requires Basic(s) && BundleWritten(s) && a.Step? && a.pid in s.procs && HoldsExclusive(s.procs[a.pid].pc)
    ensures BundleWritten(Apply(s, a))
  {
    var p, pc := a.pid, s.procs[a.pid].pc;
    if pc.Checked? {
      BundleWriteStored(s, p, a.fail);
      assert Apply(s, a) == StepBundle(s, p, pc, a.fail);
    } else if pc.BundleDone? && pc.c.origins.Some? {
      HolderCommit(s, p);
      PathsDistinct(pc.c.app, pc.c.env, pc.c.app, pc.c.env);
      OriginsWriteKeepsBundle(s, p, a.fail);
      assert Apply(s, a) == StepOrigins(s, p, pc, a.fail);
    } else {
      OtherHolderSteps(s, a);
    }
    BundleWrittenMove(s, Apply(s, a), p);
  }

  lemma BundleWrittenStep(s: Sys, a: Action)
    requires Basic(s) && BundleWritten(s)
    ensures BundleWritten(Apply(s, a))
  {
    if a.Step? && a.pid in s.procs {
      if HoldsExclusive(s.procs[a.pid].pc) {
        BundleWrittenHolder(s, a);
      } else {
        OutsideEffect(s, a);
        OutsideNotWriting(s, a.pid, a.fail);
      }
    }
  }

  lemma {:induction false} RunBundleWritten(s: Sys, run: seq<Action>)
    requires Start(s) && Sound(s.files)
    ensures BundleWritten(Exec(s, run))
  {
    if run != [] {
      var n := |run| - 1;
      RunBundleWritten(s, run[..n]);
      RunBasic(s, run[..n]);
      BundleWrittenStep(Exec(s, run[..n]), run[n]);
    }
  }

  // ---- frozen namespaces ------------------------------------------------------------------------------

  /** The namespace as the fatal commit left it. */
  ghost predicate Frozen(files: FileMap, app: string, env: string, meta: EnvMeta, cipher: Cipher) {
    && FindEntry(files, app, env) == Ok(meta) && meta.file == BundlePath(app, env)
    && Snapshot(files, BundlePath(app, env)) == Some(Bundle(cipher))
    && Dotenv.Parsed(cipher.plain).Err?
  }

  /** No process can write to the namespace any more. The `earlier` processes were there before
      the fatal commit; what they computed is for an older version. */
  ghost predicate Harmless(proc: Proc, app: string, env: string, version: nat, earlier: bool) {
    proc.job.app == app && proc.job.env == env ==>
      match proc.pc
      case Idle => true
      case SharedHeld => true
      case Loaded(_) => true
      case Hashed(_) => true
      case Failed => true
      case Decrypted(meta, _) => earlier && meta.version < version
      case Ready(c) => proc.job.Init? || (earlier && c.loadedVersion < version)
      case ExclusiveHeld(c) => proc.job.Init? || (earlier && c.loadedVersion < version)
      case ReadDone(_, _, _) => earlier
      case CommitDone => earlier
      case _ => false
  }

  ghost predicate Stuck(s: Sys, app: string, env: string, meta: EnvMeta, cipher: Cipher, before: set<Pid>) {
    && Basic(s) && ValidName(app) && ValidName(env)
    && Frozen(s.files, app, env, meta, cipher)
    && forall p :: p in s.procs ==> Harmless(s.procs[p], app, env, meta.version, p in before)
  }

  lemma HarmlessDecrypt(s: Sys, p: Pid, fail: bool, app: string, env: string, meta: EnvMeta, cipher: Cipher,
                        earlier: bool)
    requires Basic(s) && Frozen(s.files, app, env, meta, cipher)
    requires p in s.procs && s.procs[p].pc.Hashed? && Harmless(s.procs[p], app, env, meta.version, earlier)
    ensures Harmless(Apply(s, Step(p, fail)).procs[p], app, env, meta.version, earlier)
  {
    assert ProcOk(LoadManifest(s.files).value, s.procs[p]);
    assert Apply(s, Step(p, fail)) == StepDecrypt(s, p, s.procs[p].pc.meta, fail);
  }

  lemma HarmlessEdit(s: Sys, p: Pid, fail: bool, app: string, env: string, meta: EnvMeta, cipher: Cipher, earlier: bool)
    requires Basic(s) && p in s.procs && s.procs[p].pc.Decrypted?
    requires Harmless(s.procs[p], app, env, meta.version, earlier)
    ensures Harmless(Apply(s, Step(p, fail)).procs[p], app, env, meta.version, earlier)
  {
    var job, pc := s.procs[p].job, s.procs[p].pc;
    assert ProcOk(LoadManifest(s.files).value, s.procs[p]);
    assert Apply(s, Step(p, fail)) == StepEdit(s, p, pc.meta, pc.plain, fail);
    var origins := EditOrigins(s.files, job);
    if origins.Ok? && EditPlain(job, pc.meta, pc.plain, origins.value).Ok? {
      EditPlainShape(job, pc.meta, pc.plain, origins.value);
    }
  }

  /** A commit prepared for an older version, and an Init, are refused under the lock. */
  lemma HarmlessCheck(s: Sys, p: Pid, fail: bool, app: string, env: string, meta: EnvMeta, cipher: Cipher,
                      earlier: bool)
    requires Basic(s) && Frozen(s.files, app, env, meta, cipher)
    requires p in s.procs && s.procs[p].pc.ExclusiveHeld? && Harmless(s.procs[p], app, env, meta.version, earlier)
    ensures Harmless(Apply(s, Step(p, fail)).procs[p], app, env, meta.version, earlier)
  {
    assert ProcOk(LoadManifest(s.files).value, s.procs[p]);
    assert Apply(s, Step(p, fail)) == StepCheck(s, p, s.procs[p].pc.c, fail);
  }

  lemma HarmlessOwn(s: Sys, p: Pid, fail: bool, app: string, env: string, meta: EnvMeta, cipher: Cipher, earlier: bool)
    requires Basic(s) && Frozen(s.files, app, env, meta, cipher)
    requires p in s.procs && Harmless(s.procs[p], app, env, meta.version, earlier)
    ensures Harmless(Apply(s, Step(p, fail)).procs[p], app, env, meta.version, earlier)
  {
    var pc := s.procs[p].pc;
    if pc.Hashed? {
      HarmlessDecrypt(s, p, fail, app, env, meta, cipher, earlier);
    } else if pc.Decrypted? {
      HarmlessEdit(s, p, fail, app, env, meta, cipher, earlier);
    } else if pc.ExclusiveHeld? {
      HarmlessCheck(s, p, fail, app, env, meta, cipher, earlier);
    } else {
      HarmlessRest(s, p, fail, app, env, meta.version, earlier);
    }
  }

  lemma HarmlessRest(s: Sys, p: Pid, fail: bool, app: string, env: string, version: nat, earlier: bool)
    requires p in s.procs && Harmless(s.procs[p], app, env, version, earlier)
    requires !s.procs[p].pc.Hashed? && !s.procs[p].pc.Decrypted? && !s.procs[p].pc.ExclusiveHeld?
    ensures Harmless(Apply(s, Step(p, fail)).procs[p], app, env, version, earlier)
  {
  }

  /** Commits to other namespaces do not touch the frozen one. */
  lemma FrozenOther(s: Sys, a: Action, app: string, env: string, meta: EnvMeta, cipher: Cipher)
    requires Basic(s) && ValidName(app) && ValidName(env) && Frozen(s.files, app, env, meta, cipher)
    requires a.Step? && a.pid in s.procs && HoldsExclusive(s.procs[a.pid].pc)
    requires s.procs[a.pid].job.app != app || s.procs[a.pid].job.env != env
    ensures Frozen(Apply(s, a).files, app, env, meta, cipher)
  {
    HolderFrame(s, a, app, env);
  }

  lemma FrozenHolder(s: Sys, a: Action, app: string, env: string, meta: EnvMeta, cipher: Cipher)
    requires Basic(s) && ValidName(app) && ValidName(env) && Frozen(s.files, app, env, meta, cipher)
    requires a.Step? && a.pid in s.procs && HoldsExclusive(s.procs[a.pid].pc)
    requires s.procs[a.pid].pc.ExclusiveHeld? || s.procs[a.pid].job.app != app || s.procs[a.pid].job.env != env
    ensures Frozen(Apply(s, a).files, app, env, meta, cipher)
  {
    if s.procs[a.pid].pc.ExclusiveHeld? {
      assert Apply(s, a) == StepCheck(s, a.pid, s.procs[a.pid].pc.c, a.fail);
    } else {
      FrozenOther(s, a, app, env, meta, cipher);
    }
  }

  lemma StuckStep(s: Sys, a: Action, app: string, env: string, meta: EnvMeta, cipher: Cipher, before: set<Pid>)
    requires Stuck(s, app, env, meta, cipher, before)
    ensures Stuck(Apply(s, a), app, env, meta, cipher, before)
  {
    BasicStep(s, a);
    if a.Step? && a.pid in s.procs {
      var p := a.pid;
      assert Harmless(s.procs[p], app, env, meta.version, p in before);
      if HoldsExclusive(s.procs[p].pc) {
        FrozenHolder(s, a, app, env, meta, cipher);
      } else {
        OutsideEffect(s, a);
      }
      HarmlessOwn(s, p, a.fail, app, env, meta, cipher, p in before);
      HarmlessOthers(s, Apply(s, a), p, app, env, meta.version, before);
    } else {
      SpawnHarmless(s, a, app, env, meta.version, before);
    }
  }

  lemma HarmlessOthers(s: Sys, t: Sys, p: Pid, app: string, env: string, version: nat, before: set<Pid>)
    requires forall q :: q in s.procs ==> Harmless(s.procs[q], app, env, version, q in before)
    requires OnlyMoves(s, t, p) && Harmless(t.procs[p], app, env, version, p in before)
    ensures forall q :: q in t.procs ==> Harmless(t.procs[q], app, env, version, q in before)
  {
    assert forall q :: q in t.procs && q != p ==> t.procs[q] == s.procs[q];
  }

  lemma SpawnHarmless(s: Sys, a: Action, app: string, env: string, version: nat, before: set<Pid>)
    requires a.Spawn? || a.pid !in s.procs
    requires forall p :: p in s.procs ==> Harmless(s.procs[p], app, env, version, p in before)
    ensures Apply(s, a).files == s.files
    ensures forall p :: p in Apply(s, a).procs ==> Harmless(Apply(s, a).procs[p], app, env, version, p in before)
  {
  }

  lemma {:induction false} RunStuck(s: Sys, run: seq<Action>, app: string, env: string, meta: EnvMeta,
                                    cipher: Cipher, before: set<Pid>)
    requires Stuck(s, app, env, meta, cipher, before)
    ensures Stuck(Exec(s, run), app, env, meta, cipher, before)
  {
    if run != [] {
      var n := |run| - 1;
      RunStuck(s, run[..n], app, env, meta, cipher, before);
      StuckStep(Exec(s, run[..n]), run[n], app, env, meta, cipher, before);
    }
  }

  lemma CommitFreezes(s: Sys, a: Action)
    requires Basic(s) && BundleWritten(s) && Commits(s, a) && Dotenv.Parsed(s.procs[a.pid].pc.c.plain).Err?
    ensures var c, cipher := s.procs[a.pid].pc.c, s.procs[a.pid].pc.cipher;
      Stuck(Apply(s, a), c.app, c.env, Stamped(c, cipher), cipher, Apply(s, a).procs.Keys)
  {
    BasicStep(s, a);
    CommitIsFrozen(s, a);
    var t, c := Apply(s, a), s.procs[a.pid].pc.c;
    forall q | q in t.procs
      ensures Harmless(t.procs[q], c.app, c.env, c.meta.version, true)
    {
      CommitDisarms(s, a, q);
    }
  }

  lemma CommitIsFrozen(s: Sys, a: Action)
    requires Basic(s) && BundleWritten(s) && Commits(s, a) && Dotenv.Parsed(s.procs[a.pid].pc.c.plain).Err?
    ensures var c, cipher := s.procs[a.pid].pc.c, s.procs[a.pid].pc.cipher;
      ValidName(c.app) && ValidName(c.env) && Frozen(Apply(s, a).files, c.app, c.env, Stamped(c, cipher), cipher)
  {
    var pc := s.procs[a.pid].pc;
    CommitStep(s, a);
    HolderCommit(s, a.pid);
    assert ProcOk(LoadManifest(s.files).value, s.procs[a.pid]);
    MergeIntoFrame(LoadManifest(s.files).value, pc.c.app, pc.c.env, Stamped(pc.c, pc.cipher), pc.c.app, pc.c.env);
    PathsDistinct(pc.c.app, pc.c.env, pc.c.app, pc.c.env);
  }

  /** What the others have computed for this namespace is for an older version from now on. */
  lemma CommitDisarms(s: Sys, a: Action, q: Pid)
    requires Basic(s) && Commits(s, a) && q in Apply(s, a).procs
    ensures var c := s.procs[a.pid].pc.c;
      Harmless(Apply(s, a).procs[q], c.app, c.env, c.meta.version, true)
  {
    var c := s.procs[a.pid].pc.c;
    HolderHoldsLock(s, a.pid);
    CommitStep(s, a);
    CommitNumber(s, a, c.app, c.env);
    if q != a.pid {
      assert ProcOk(LoadManifest(s.files).value, s.procs[q]);
      assert !HoldsExclusive(s.procs[q].pc);
    }
  }

  /** Once a commit stores a map with an encoded line of the limit's length or more, then in
      every continuation, whatever fails and whoever runs, the namespace keeps that manifest
      entry and that bundle, and no process started later ever completes a read or a commit on
      it. */
  lemma {:induction false} OversizeNeverRecovers(s: Sys, run: seq<Action>, a: Action, values: Dotenv.Values,
                                                 more: seq<Action>)
    requires Start(s) && Sound(s.files) && Commits(Exec(s, run), a)
    requires Prints(Exec(s, run).procs[a.pid].pc.c.plain, values) && !Dotenv.Fits(values)
    ensures var c := Exec(s, run).procs[a.pid].pc.c;
      var t := Apply(Exec(s, run), a);
      var u := Exec(t, more);
      && FindEntry(u.files, c.app, c.env) == FindEntry(t.files, c.app, c.env)
      && Snapshot(u.files, BundlePath(c.app, c.env)) == Snapshot(t.files, BundlePath(c.app, c.env))
      && forall p :: p in u.procs && p !in t.procs && u.procs[p].job.app == c.app && u.procs[p].job.env == c.env ==>
           !u.procs[p].pc.ReadDone? && !u.procs[p].pc.CommitDone?
  {
    var x := Exec(s, run);
    RunBasic(s, run);
    RunBundleWritten(s, run);
    DotenvLaws.RoundTrip(values);
    CommitFreezes(x, a);
    var c, cipher := x.procs[a.pid].pc.c, x.procs[a.pid].pc.cipher;
    var t := Apply(x, a);
    RunStuck(t, more, c.app, c.env, Stamped(c, cipher), cipher, t.procs.Keys);
    var u := Exec(t, more);
    forall p | p in u.procs && p !in t.procs && u.procs[p].job.app == c.app && u.procs[p].job.env == c.env
      ensures !u.procs[p].pc.ReadDone? && !u.procs[p].pc.CommitDone?
    {
      assert Harmless(u.procs[p], c.app, c.env, c.meta.version, p in t.procs.Keys);
    }
  }
}
