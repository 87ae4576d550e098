/** What a finished reader returns, although its hash check and its decryption are two separate
    unlocked reads. */
module ProtocolReads {
  import opened Strings
  import opened Validate
  import opened Files
  import opened Transactions
  import opened StoreLaws
  import opened Protocol
  import opened ProtocolBasic
  import opened ProtocolSound
  import opened ProtocolSerial
  import Dotenv

  ghost predicate HasVersion(files: FileMap, app: string, env: string, w: nat, plain: string) {
    match EntryAt(files, app, env)
    case None => false
    case Some(e) => e.version == w && e.plain == plain
  }

  /** Version `w` of the namespace, at some point of the serial history, had this plaintext. */
  ghost predicate InHistory(d: Disk, log: seq<Event>, app: string, env: string, w: nat, plain: string) {
    exists k :: 0 <= k <= |log| && HasVersion(Replay(d, log[..k]).files, app, env, w, plain)
  }

  /** Version `w` is being committed right now: its bundle is written and has been read, its
      manifest entry is not written. */
  ghost predicate InFlight(s: Sys, peeked: Option<(string, string)>, app: string, env: string, w: nat, plain: string) {
    match s.lock.exclusive
    case None => false
    case Some(p) =>
      && p in s.procs && (s.procs[p].pc.BundleDone? || s.procs[p].pc.OriginsDone?) && peeked == Some((app, env))
      && var c := s.procs[p].pc.c;
         c.app == app && c.env == env && c.meta.version == w && c.plain == plain
  }

  ghost predicate OneVersion(d: Disk, s: Sys, peeked: Option<(string, string)>, app: string, env: string, w: nat,
                             plain: string)
  {
    InHistory(d, s.log, app, env, w, plain) || InFlight(s, peeked, app, env, w, plain)
  }

  ghost predicate ReadExact(d: Disk, s: Sys, peeked: Option<(string, string)>, proc: Proc) {
    proc.pc.ReadDone? ==>
      exists w :: w >= proc.pc.meta.version && OneVersion(d, s, peeked, proc.job.app, proc.job.env, w, proc.pc.plain)
  }

  ghost predicate AllReadsExact(d: Disk, s: Sys, peeked: Option<(string, string)>) {
    forall p :: p in s.procs ==> ReadExact(d, s, peeked, s.procs[p])
  }

  lemma HistoryGrows(d: Disk, log: seq<Event>, e: Event, app: string, env: string, w: nat, plain: string)
    requires InHistory(d, log, app, env, w, plain)
    ensures InHistory(d, log + [e], app, env, w, plain)
  {
    var k :| 0 <= k <= |log| && HasVersion(Replay(d, log[..k]).files, app, env, w, plain);
    assert (log + [e])[..k] == log[..k];
  }

  lemma CurrentInHistory(d: Disk, s: Sys, app: string, env: string, w: nat, plain: string)
    requires Serial(d, s) && HasVersion(s.committed, app, env, w, plain)
    ensures InHistory(d, s.log, app, env, w, plain)
  {
    assert s.log[..|s.log|] == s.log;
    assert EntryAt(s.committed, app, env) == EntryAt(Replay(d, s.log).files, app, env);
    assert HasVersion(Replay(d, s.log[..|s.log|]).files, app, env, w, plain);
  }

  /** What was read stays one version of the history: a version that has been read in flight is
      committed. */
  lemma OneVersionStable(d: Disk, s: Sys, peeked: Option<(string, string)>, a: Action, app: string, env: string, w: nat,
                         plain: string)
    requires Quiet(d, s, peeked) && QuietStep(s, peeked, a) && OneVersion(d, s, peeked, app, env, w, plain)
    ensures OneVersion(d, Apply(s, a), Next(s, peeked, a), app, env, w, plain)
  {
    var t := Apply(s, a);
    QuietAfter(d, s, peeked, a);
    BasicStep(s, a);
    if InHistory(d, s.log, app, env, w, plain) {
      if Commits(s, a) {
        CommitStep(s, a);
        HistoryGrows(d, s.log, t.log[|s.log|], app, env, w, plain);
      }
    } else {
      var p := s.lock.exclusive.value;
      var pc := s.procs[p].pc;
      if Commits(s, a) {
        ContainedCommit(s, a);
        HolderCommit(s, a.pid);
        CommittedView(s.committed, pc.c, pc.cipher.id, app, env);
        CurrentInHistory(d, t, app, env, w, plain);
      } else {
        InFlightStable(s, a, p);
      }
    }
  }

  lemma InFlightStable(s: Sys, a: Action, p: Pid)
    requires Basic(s) && !FailsAfterWrite(s, a) && !Commits(s, a)
    requires s.lock.exclusive == Some(p) && p in s.procs && (s.procs[p].pc.BundleDone? || s.procs[p].pc.OriginsDone?)
    ensures var t := Apply(s, a);
      && t.lock.exclusive == Some(p) && p in t.procs
      && (t.procs[p].pc.BundleDone? || t.procs[p].pc.OriginsDone?) && t.procs[p].pc.c == s.procs[p].pc.c
  {
    if a.Step? && a.pid in s.procs && a.pid != p {
      assert !HoldsExclusive(s.procs[a.pid].pc);
      OutsideEffect(s, a);
    }
  }

  /** The decrypting read returns the committed version or the one in flight. */
  lemma ReadOneVersion(d: Disk, s: Sys, peeked: Option<(string, string)>, p: Pid)
    requires Quiet(d, s, peeked) && QuietStep(s, peeked, Step(p, false))
    requires p in s.procs && s.procs[p].pc.Hashed? && s.procs[p].job.Read?
    requires ReadPlain(s.files, s.procs[p].job.who, s.procs[p].pc.meta).Ok?
    ensures var job, meta := s.procs[p].job, s.procs[p].pc.meta;
      var after := if Peeks(s, Step(p, false)) then Window(s) else peeked;
      exists w :: w >= meta.version
        && OneVersion(d, s, after, job.app, job.env, w, ReadPlain(s.files, job.who, meta).value)
  {
    var job, meta := s.procs[p].job, s.procs[p].pc.meta;
    var plain := ReadPlain(s.files, job.who, meta).value;
    var after := if Peeks(s, Step(p, false)) then Window(s) else peeked;
    assert ProcOk(LoadManifest(s.files).value, s.procs[p]);
    var cur := EnvFrom(LoadManifest(s.files).value, job.app, job.env).value;
    if Window(s) == Some((job.app, job.env)) {
      var q := s.lock.exclusive.value;
      HolderCommit(s, q);
      var c := s.procs[q].pc.c;
      assert ProcOk(LoadManifest(s.files).value, s.procs[q]);
      PathsDistinct(c.app, c.env, c.app, c.env);
      assert InFlight(s, after, job.app, job.env, c.meta.version, plain);
      assert OneVersion(d, s, after, job.app, job.env, c.meta.version, plain);
    } else {
      FilesOfIdleNamespace(s, job.app, job.env);
      EntryOf(s.committed, job.app, job.env);
      CurrentInHistory(d, s, job.app, job.env, cur.version, plain);
      assert OneVersion(d, s, after, job.app, job.env, cur.version, plain);
    }
  }

  lemma ReadsOther(d: Disk, s: Sys, peeked: Option<(string, string)>, a: Action, proc: Proc)
    requires Quiet(d, s, peeked) && QuietStep(s, peeked, a) && ReadExact(d, s, peeked, proc)
    ensures ReadExact(d, Apply(s, a), Next(s, peeked, a), proc)
  {
    if proc.pc.ReadDone? {
      var w :| w >= proc.pc.meta.version && OneVersion(d, s, peeked, proc.job.app, proc.job.env, w, proc.pc.plain);
      OneVersionStable(d, s, peeked, a, proc.job.app, proc.job.env, w, proc.pc.plain);
    }
  }

  lemma ReadsOwn(d: Disk, s: Sys, peeked: Option<(string, string)>, a: Action)
    requires Quiet(d, s, peeked) && QuietStep(s, peeked, a) && a.Step? && a.pid in s.procs
    requires s.procs[a.pid].pc.Hashed? && s.procs[a.pid].job.Read?
    ensures ReadExact(d, Apply(s, a), Next(s, peeked, a), Apply(s, a).procs[a.pid])
  {
    var p, job, meta := a.pid, s.procs[a.pid].job, s.procs[a.pid].pc.meta;
    var t := Apply(s, a);
    assert t == StepDecrypt(s, p, meta, a.fail);
    if t.procs[p].pc.ReadDone? {
      ReadOneVersion(d, s, peeked, p);
      var after := if Peeks(s, a) then Window(s) else peeked;
      var plain := ReadPlain(s.files, job.who, meta).value;
      var w :| w >= meta.version && OneVersion(d, s, after, job.app, job.env, w, plain);
      WindowOutside(s, a);
      assert after == Next(s, peeked, a);
      ReadMoves(d, s, t, after, p, job.app, job.env, w, plain);
    }
  }

  /** A step of a reader changes nothing that what it has read depends on. */
  lemma ReadMoves(d: Disk, s: Sys, t: Sys, peeked: Option<(string, string)>, p: Pid, app: string, env: string, w: nat,
                  plain: string)
    requires OneVersion(d, s, peeked, app, env, w, plain) && LockOk(s)
    requires OnlyMoves(s, t, p) && !HoldsExclusive(s.procs[p].pc) && t.log == s.log && t.lock == s.lock
    ensures OneVersion(d, t, peeked, app, env, w, plain)
  {
  }

  lemma OthersStay(s: Sys, a: Action, q: Pid)
    requires a.Step? && q != a.pid
    ensures q in Apply(s, a).procs <==> q in s.procs
    ensures q in s.procs ==> Apply(s, a).procs[q] == s.procs[q]
  {
  }

  lemma OnlyDecryptingReads(s: Sys, p: Pid, fail: bool)
    requires p in s.procs && !s.procs[p].pc.ReadDone?
    requires !s.procs[p].pc.Hashed? || !s.procs[p].job.Read?
    ensures !Apply(s, Step(p, fail)).procs[p].pc.ReadDone?
  {
    var pc := s.procs[p].pc;
    match pc
    case Idle => assert !StepIdle(s, p, fail).procs[p].pc.ReadDone?;
    case SharedHeld => assert !StepShared(s, p, fail).procs[p].pc.ReadDone?;
    case Loaded(meta) => assert !StepHash(s, p, meta, fail).procs[p].pc.ReadDone?;
    case Hashed(meta) =>
    case Decrypted(meta, plain) =>
    case Ready(c) => assert !StepReady(s, p, c, fail).procs[p].pc.ReadDone?;
    case ExclusiveHeld(c) => assert !StepCheck(s, p, c, fail).procs[p].pc.ReadDone?;
    case Checked(_, _, _, _) => assert !StepBundle(s, p, pc, fail).procs[p].pc.ReadDone?;
    case BundleDone(c, _, _, _, _) =>
    case OriginsDone(_, _, _, _, _) => assert !StepManifest(s, p, pc, fail).procs[p].pc.ReadDone?;
    case UndoBundle(_, _, _) =>
    case UndoOrigins(_, _) =>
    case _ =>
  }

  /** A process other than a decrypting reader does not become a finished reader. */
  lemma NoOtherReads(s: Sys, a: Action, q: Pid)
    requires q in Apply(s, a).procs && Apply(s, a).procs[q].pc.ReadDone?
    ensures q in s.procs
    ensures s.procs[q] == Apply(s, a).procs[q]
      || (a == Step(q, a.fail) && s.procs[q].pc.Hashed? && s.procs[q].job.Read?)
  {
    if a.Step? {
      if a.pid != q {
        OthersStay(s, a, q);
      } else if q in s.procs && !s.procs[q].pc.ReadDone? && !(s.procs[q].pc.Hashed? && s.procs[q].job.Read?) {
        OnlyDecryptingReads(s, q, a.fail);
      }
    }
  }

  lemma ReadsStep(d: Disk, s: Sys, peeked: Option<(string, string)>, a: Action)
    requires Quiet(d, s, peeked) && AllReadsExact(d, s, peeked) && QuietStep(s, peeked, a)
    ensures AllReadsExact(d, Apply(s, a), Next(s, peeked, a))
  {
    var t := Apply(s, a);
    forall q | q in t.procs
      ensures ReadExact(d, t, Next(s, peeked, a), t.procs[q])
    {
      if t.procs[q].pc.ReadDone? {
        NoOtherReads(s, a, q);
        if s.procs[q] == t.procs[q] {
          ReadsOther(d, s, peeked, a, s.procs[q]);
        } else {
          ReadsOwn(d, s, peeked, a);
        }
      }
    }
  }

  lemma {:induction false} RunReads(s: Sys, run: seq<Action>)
    requires Start(s) && Sound(s.files) && QuietRun(s, run)
    ensures AllReadsExact(Disk(s.files, s.nextId), Exec(s, run), Peeked(s, run))
  {
    if run != [] {
      var n := |run| - 1;
      assert forall i :: 0 <= i < n ==> run[..n][..i] == run[..i];
      RunReads(s, run[..n]);
      RunQuiet(s, run[..n]);
      assert QuietStep(Exec(s, run[..n]), Peeked(s, run[..n]), run[n]);
      ReadsStep(Disk(s.files, s.nextId), Exec(s, run[..n]), Peeked(s, run[..n]), run[n]);
    }
  }

  /** In a quiet run a successful read returns the complete map of exactly one version, at least as
      new as the manifest entry it returns: a version of the serial history, or the one whose commit
      is under way at the end of the run. It never returns a mix of two, and never the text of a
      commit that fails. */
  lemma {:induction false} SnapshotReads(s: Sys, run: seq<Action>, p: Pid)
    requires Start(s) && Sound(s.files) && QuietRun(s, run)
    requires p in Exec(s, run).procs && Exec(s, run).procs[p].pc.ReadDone?
    ensures var t, proc := Exec(s, run), Exec(s, run).procs[p];
      && Dotenv.Parsed(proc.pc.plain) == Ok(proc.pc.values)
      && exists w :: w >= proc.pc.meta.version
           && OneVersion(Disk(s.files, s.nextId), t, Peeked(s, run), proc.job.app, proc.job.env, w, proc.pc.plain)
  {
    var t := Exec(s, run);
    RunReads(s, run);
    RunBasic(s, run);
    assert ProcOk(LoadManifest(t.files).value, t.procs[p]);
    assert ReadExact(Disk(s.files, s.nextId), t, Peeked(s, run), t.procs[p]);
  }
}
