/** One operation on its own in the step machine: the steps that succeed, and the whole operation,
    which does exactly what the same operation does in `Transactions`. */
module ProtocolSolo {
  import opened Strings
  import opened Validate
  import opened Files
  import opened Edits
  import opened Transactions
  import opened StoreLaws
  import opened Protocol
  import Dotenv

  lemma ExecSnoc(s: Sys, run: seq<Action>, a: Action)
    ensures Exec(s, run + [a]) == Apply(Exec(s, run), a)
  {
    assert (run + [a])[..|run + [a]| - 1] == run;
  }

  // ---- single steps that succeed ----------------------------------------------------------------------

  lemma GoesIdle(s: Sys, run: seq<Action>, p: Pid)
    requires var x := Exec(s, run);
      && p in x.procs && x.procs[p].pc.Idle? && !x.procs[p].job.Init? && x.lock == FREE
      && CheckJob(x.procs[p].job).None?
    ensures Exec(s, run + [Step(p, false)]) == Move(Exec(s, run), p, SharedHeld).(lock := Lock({p}, None))
  {
    ExecSnoc(s, run, Step(p, false));
  }

  lemma GoesShared(s: Sys, run: seq<Action>, p: Pid, meta: EnvMeta)
    requires var x := Exec(s, run);
      && p in x.procs && x.procs[p].pc.SharedHeld? && x.lock == Lock({p}, None)
      && FindEntry(x.files, x.procs[p].job.app, x.procs[p].job.env) == Ok(meta)
    ensures Exec(s, run + [Step(p, false)]) == Move(Exec(s, run), p, Loaded(meta)).(lock := FREE)
  {
    ExecSnoc(s, run, Step(p, false));
  }

  lemma GoesHash(s: Sys, run: seq<Action>, p: Pid, meta: EnvMeta)
    requires var x := Exec(s, run);
      p in x.procs && x.procs[p].pc == Loaded(meta) && HashCheck(x.files, meta).None?
    ensures Exec(s, run + [Step(p, false)]) == Move(Exec(s, run), p, Hashed(meta))
  {
    ExecSnoc(s, run, Step(p, false));
  }

  lemma GoesDecrypt(s: Sys, run: seq<Action>, p: Pid, meta: EnvMeta, plain: string)
    requires var x := Exec(s, run);
      && p in x.procs && x.procs[p].pc == Hashed(meta) && x.procs[p].job.Mutate?
      && ReadPlain(x.files, x.procs[p].job.who, meta) == Ok(plain) && Dotenv.Parsed(plain).Ok?
    ensures Exec(s, run + [Step(p, false)]) == Move(Exec(s, run), p, Decrypted(meta, plain))
  {
    ExecSnoc(s, run, Step(p, false));
  }

  lemma GoesEdit(s: Sys, run: seq<Action>, p: Pid, meta: EnvMeta, plain: string, origins: OriginMap, c: Commit)
    requires var x := Exec(s, run);
      && p in x.procs && x.procs[p].pc == Decrypted(meta, plain) && x.procs[p].job.Mutate?
      && EditOrigins(x.files, x.procs[p].job) == Ok(origins)
      && EditPlain(x.procs[p].job, meta, plain, origins) == Ok(c)
    ensures Exec(s, run + [Step(p, false)]) == Move(Exec(s, run), p, Ready(c))
  {
    ExecSnoc(s, run, Step(p, false));
  }

  lemma GoesReady(s: Sys, run: seq<Action>, p: Pid, c: Commit)
    requires var x := Exec(s, run);
      p in x.procs && x.procs[p].pc == Ready(c) && x.lock == FREE
    ensures Exec(s, run + [Step(p, false)])
         == Move(Exec(s, run), p, ExclusiveHeld(c)).(lock := Lock({}, Some(p)))
  {
    ExecSnoc(s, run, Step(p, false));
  }

  function CheckedAt(files: FileMap, c: Commit): Pc
    requires LoadManifest(files).Ok?
  {
    Checked(c, LoadManifest(files).value, Snapshot(files, c.meta.file), Snapshot(files, OriginsPath(c.app, c.env)))
  }

  function WrittenAt(files: FileMap, c: Commit, cipher: Cipher): Pc
    requires LoadManifest(files).Ok?
  {
    BundleDone(c, cipher, LoadManifest(files).value, Snapshot(files, c.meta.file),
               Snapshot(files, OriginsPath(c.app, c.env)))
  }

  lemma GoesCheck(s: Sys, run: seq<Action>, p: Pid, c: Commit)
    requires var x := Exec(s, run);
      && p in x.procs && x.procs[p].pc == ExclusiveHeld(c)
      && LoadManifest(x.files).Ok? && Admit(LoadManifest(x.files).value, c, x.procs[p].job.Init?).None?
    ensures Exec(s, run + [Step(p, false)]) == Move(Exec(s, run), p, CheckedAt(Exec(s, run).files, c))
  {
    ExecSnoc(s, run, Step(p, false));
    CheckPasses(Exec(s, run), p, c);
  }

  lemma CheckPasses(x: Sys, p: Pid, c: Commit)
    requires p in x.procs && x.procs[p].pc == ExclusiveHeld(c)
    requires LoadManifest(x.files).Ok? && Admit(LoadManifest(x.files).value, c, x.procs[p].job.Init?).None?
    ensures Apply(x, Step(p, false)) == Move(x, p, CheckedAt(x.files, c))
  {
  }

  lemma GoesBundle(s: Sys, run: seq<Action>, p: Pid, c: Commit, cipher: Cipher)
    requires var x := Exec(s, run);
      && LoadManifest(x.files).Ok? && ValidRecipients(c.meta.recipients) && cipher == CipherFor(c, x.nextId)
      && p in x.procs && x.procs[p].pc == CheckedAt(x.files, c)
    ensures var x := Exec(s, run);
      Exec(s, run + [Step(p, false)])
        == Move(x, p, WrittenAt(x.files, c, cipher)).(files := PutBundle(x.files, c, cipher), nextId := x.nextId + 1)
  {
    ExecSnoc(s, run, Step(p, false));
  }

  lemma GoesOrigins(s: Sys, run: seq<Action>, p: Pid, pc: Pc, fail: bool)
    requires var x := Exec(s, run);
      p in x.procs && x.procs[p].pc == pc && pc.BundleDone? && pc.c.origins.Some?
    ensures Exec(s, run + [Step(p, fail)]) == StepOrigins(Exec(s, run), p, pc, fail)
  {
    ExecSnoc(s, run, Step(p, fail));
  }

  lemma GoesManifest(s: Sys, run: seq<Action>, p: Pid, pc: Pc)
    requires var x := Exec(s, run);
      p in x.procs && x.procs[p].pc == pc && pc.OriginsDone?
    ensures Exec(s, run + [Step(p, false)]) == WriteManifest(Exec(s, run), p, pc.c, pc.cipher, pc.disk)
  {
    ExecSnoc(s, run, Step(p, false));
  }

  lemma GoesManifestOnly(s: Sys, run: seq<Action>, p: Pid, pc: Pc)
    requires var x := Exec(s, run);
      p in x.procs && x.procs[p].pc == pc && pc.BundleDone? && pc.c.origins.None?
    ensures Exec(s, run + [Step(p, false)]) == WriteManifest(Exec(s, run), p, pc.c, pc.cipher, pc.disk)
  {
    ExecSnoc(s, run, Step(p, false));
  }

  lemma GoesNowhere(s: Sys, run: seq<Action>, p: Pid)
    requires var x := Exec(s, run); p in x.procs && x.procs[p].pc.CommitDone?
    ensures Exec(s, run + [Step(p, false)]) == Exec(s, run)
  {
    ExecSnoc(s, run, Step(p, false));
  }

  lemma GoesUndo(s: Sys, run: seq<Action>, p: Pid, pc: Pc)
    requires var x := Exec(s, run); p in x.procs && x.procs[p].pc == pc
    ensures pc.UndoBundle? ==> Exec(s, run + [Step(p, false)]) == StepUndoBundle(Exec(s, run), p, pc, false)
    ensures pc.UndoOrigins? ==> Exec(s, run + [Step(p, false)]) == StepUndoOrigins(Exec(s, run), p, pc, false)
  {
    ExecSnoc(s, run, Step(p, false));
  }

  lemma GoesSpawn(s: Sys, run: seq<Action>, p: Pid, job: Job)
    requires p !in Exec(s, run).procs
    ensures Exec(s, run + [Spawn(p, job)]) == Exec(s, run).(procs := Exec(s, run).procs[p := Proc(job, Idle)])
  {
    ExecSnoc(s, run, Spawn(p, job));
  }

  // ---- the whole operation ----------------------------------------------------------------------------

  function Solo(run: seq<Action>, p: Pid, job: Job): seq<Action> {
    SoloWrites(SoloReads(run + [Spawn(p, job)], p), p)
  }

  function SoloReads(run: seq<Action>, p: Pid): seq<Action> {
    var go := Step(p, false);
    run + [go] + [go] + [go] + [go] + [go]
  }

  function SoloWrites(run: seq<Action>, p: Pid): seq<Action> {
    var go := Step(p, false);
    run + [go] + [go] + [go] + [go] + [go]
  }

  /** The system of `x` with one more process. */
  ghost predicate With(t: Sys, x: Sys, p: Pid, job: Job, pc: Pc) {
    t.procs == x.procs[p := Proc(job, pc)]
  }

  ghost predicate SameStore(t: Sys, x: Sys) {
    t.files == x.files && t.nextId == x.nextId && t.committed == x.committed && t.log == x.log
  }

  lemma MovesWith(t: Sys, x: Sys, p: Pid, job: Job, pc: Pc, pc': Pc)
    requires With(t, x, p, job, pc)
    ensures p in t.procs && t.procs[p] == Proc(job, pc)
    ensures With(Move(t, p, pc'), x, p, job, pc')
  {
  }

  /** The state after the critical section. */
  ghost predicate SoloDone(t: Sys, x: Sys, p: Pid, job: Job, c: Commit)
    requires LoadManifest(x.files).Ok?
  {
    var after := Committed(x.files, c, CipherFor(c, x.nextId));
    && With(t, x, p, job, CommitDone) && t.lock == FREE
    && t.files == after && t.committed == after && t.nextId == x.nextId + 1
    && t.log == x.log + [Event(p, job, c.meta.version)]
  }

  lemma SoloWritesPhase(s: Sys, run: seq<Action>, x: Sys, p: Pid, job: Job, c: Commit)
    requires With(Exec(s, run), x, p, job, Ready(c)) && SameStore(Exec(s, run), x) && Exec(s, run).lock == FREE
    requires job.Mutate? && LoadManifest(x.files).Ok? && Admit(LoadManifest(x.files).value, c, false).None?
    requires ValidRecipients(c.meta.recipients)
    ensures SoloDone(Exec(s, SoloWrites(run, p)), x, p, job, c)
  {
    var go := Step(p, false);
    var cipher := CipherFor(c, x.nextId);
    MovesWith(Exec(s, run), x, p, job, Ready(c), ExclusiveHeld(c));
    GoesReady(s, run, p, c);
    var r1 := run + [go];
    MovesWith(Exec(s, r1), x, p, job, ExclusiveHeld(c), CheckedAt(x.files, c));
    GoesCheck(s, r1, p, c);
    var r2 := r1 + [go];
    MovesWith(Exec(s, r2), x, p, job, CheckedAt(x.files, c), WrittenAt(x.files, c, cipher));
    GoesBundle(s, r2, p, c, cipher);
    var r3 := r2 + [go];
    SoloManifest(s, r3, x, p, job, c);
  }

  lemma SoloManifest(s: Sys, run: seq<Action>, x: Sys, p: Pid, job: Job, c: Commit)
    requires LoadManifest(x.files).Ok?
    requires var t, cipher := Exec(s, run), CipherFor(c, x.nextId);
      && With(t, x, p, job, WrittenAt(x.files, c, cipher)) && t.lock == Lock({}, Some(p))
      && t.files == PutBundle(x.files, c, cipher) && t.nextId == x.nextId + 1 && t.log == x.log
    ensures SoloDone(Exec(s, run + [Step(p, false)] + [Step(p, false)]), x, p, job, c)
  {
    var cipher := CipherFor(c, x.nextId);
    var written := WrittenAt(x.files, c, cipher);
    var next := run + [Step(p, false)];
    if c.origins.Some? {
      var done := OriginsDone(c, cipher, written.disk, written.bundle, written.origins);
      MovesWith(Exec(s, run), x, p, job, written, done);
      GoesOrigins(s, run, p, written, false);
      MovesWith(Exec(s, next), x, p, job, done, CommitDone);
      GoesManifest(s, next, p, done);
    } else {
      MovesWith(Exec(s, run), x, p, job, written, CommitDone);
      GoesManifestOnly(s, run, p, written);
      GoesNowhere(s, next, p);
    }
  }

  /** An operation that runs alone, whatever ran before, commits what it prepares from the files it
      finds, as the same operation does in one call. */
  lemma {:induction false} SoloCommits(s: Sys, run: seq<Action>, p: Pid, job: Job, c: Commit)
    requires var x := Exec(s, run);
      && x.lock == FREE && p !in x.procs && LoadManifest(x.files).Ok?
      && job.Mutate? && CheckJob(job).None? && Prepared(x.files, job) == Ok(c)
      && Admit(LoadManifest(x.files).value, c, false).None? && ValidRecipients(c.meta.recipients)
    ensures SoloDone(Exec(s, Solo(run, p, job)), Exec(s, run), p, job, c)
    ensures RunJob(Disk(Exec(s, run).files, Exec(s, run).nextId), job, NO_FAULTS)
         == Ended(Disk(Exec(s, Solo(run, p, job)).files, Exec(s, Solo(run, p, job)).nextId), None)
  {
    var x := Exec(s, run);
    GoesSpawn(s, run, p, job);
    SoloReadsAll(s, run + [Spawn(p, job)], x, p, job);
    SoloWritesPhase(s, SoloReads(run + [Spawn(p, job)], p), x, p, job, c);
  }

  // ---- operations that are refused ----------------------------------------------------------------

  /** The process has failed and nothing else has happened. */
  ghost predicate Stopped(t: Sys, x: Sys, p: Pid, job: Job) {
    With(t, x, p, job, Failed) && SameStore(t, x) && t.lock == FREE
  }

  lemma StaysStopped(s: Sys, run: seq<Action>, x: Sys, p: Pid, job: Job)
    requires Stopped(Exec(s, run), x, p, job)
    ensures Exec(s, run + [Step(p, false)]) == Exec(s, run)
  {
    ExecSnoc(s, run, Step(p, false));
    assert Exec(s, run).procs[p].pc.Failed?;
  }

  lemma StaysStopped5(s: Sys, run: seq<Action>, x: Sys, p: Pid, job: Job)
    requires Stopped(Exec(s, run), x, p, job)
    ensures Stopped(Exec(s, SoloWrites(run, p)), x, p, job)
  {
    var go := Step(p, false);
    StaysStopped(s, run, x, p, job);
    StaysStopped(s, run + [go], x, p, job);
    StaysStopped(s, run + [go] + [go], x, p, job);
    StaysStopped(s, run + [go] + [go] + [go], x, p, job);
    StaysStopped(s, run + [go] + [go] + [go] + [go], x, p, job);
  }

  /** The system while the process reads. */
  ghost predicate Reading(t: Sys, x: Sys, p: Pid, job: Job, pc: Pc) {
    && With(t, x, p, job, pc) && SameStore(t, x)
    && t.lock == if pc.SharedHeld? then Lock({p}, None) else FREE
  }

  /** Where a reading step leads when nothing fails. */
  function ReadNext(files: FileMap, job: Job, pc: Pc): Pc
    requires job.Mutate?
  {
    match pc
    case Idle => if CheckJob(job).Some? then Failed else SharedHeld
    case SharedHeld =>
      (match FindEntry(files, job.app, job.env) case Err(_) => Failed case Ok(meta) => Loaded(meta))
    case Loaded(meta) => if HashCheck(files, meta).Some? then Failed else Hashed(meta)
    case Hashed(meta) =>
      (match ReadPlain(files, job.who, meta)
       case Err(_) => Failed
       case Ok(plain) => if Dotenv.Parsed(plain).Err? then Failed else Decrypted(meta, plain))
    case Decrypted(meta, plain) =>
      (match EditOrigins(files, job)
       case Err(_) => Failed
       case Ok(origins) =>
         match EditPlain(job, meta, plain, origins)
         case Err(_) => Failed
         case Ok(c) => Ready(c))
    case _ => pc
  }

  predicate BeforeReady(pc: Pc) {
    pc.Idle? || pc.SharedHeld? || pc.Loaded? || pc.Hashed? || pc.Decrypted? || pc.Failed?
  }

  lemma ReadStep(s: Sys, run: seq<Action>, x: Sys, p: Pid, job: Job, pc: Pc)
    requires job.Mutate? && BeforeReady(pc) && Reading(Exec(s, run), x, p, job, pc)
    ensures Reading(Exec(s, run + [Step(p, false)]), x, p, job, ReadNext(x.files, job, pc))
  {
    ExecSnoc(s, run, Step(p, false));
    ReadApply(Exec(s, run), x, p, job, pc);
  }

  lemma ReadApply(t: Sys, x: Sys, p: Pid, job: Job, pc: Pc)
    requires job.Mutate? && BeforeReady(pc) && Reading(t, x, p, job, pc)
    ensures Reading(Apply(t, Step(p, false)), x, p, job, ReadNext(x.files, job, pc))
  {
    match pc
    case Idle => assert Apply(t, Step(p, false)) == StepIdle(t, p, false);
    case SharedHeld => assert Apply(t, Step(p, false)) == StepShared(t, p, false);
    case Loaded(meta) => assert Apply(t, Step(p, false)) == StepHash(t, p, meta, false);
    case Hashed(meta) => assert Apply(t, Step(p, false)) == StepDecrypt(t, p, meta, false);
    case Decrypted(meta, plain) => assert Apply(t, Step(p, false)) == StepEdit(t, p, meta, plain, false);
    case Failed => assert Apply(t, Step(p, false)) == t;
    case _ =>
  }

  /** Where the five reading steps lead. */
  function ReadsTo(files: FileMap, job: Job): Pc
    requires job.Mutate?
  {
    if CheckJob(job).Some? then Failed
    else match Prepared(files, job) case Err(_) => Failed case Ok(c) => Ready(c)
  }

  lemma FiveReads(files: FileMap, job: Job)
    requires job.Mutate?
    ensures var one := ReadNext(files, job, Idle);
      var two := ReadNext(files, job, one);
      var three := ReadNext(files, job, two);
      var four := ReadNext(files, job, three);
      && BeforeReady(one) && BeforeReady(two) && BeforeReady(three) && BeforeReady(four)
      && ReadNext(files, job, four) == ReadsTo(files, job)
  {
  }

  lemma {:induction false} SoloReadsAll(s: Sys, run: seq<Action>, x: Sys, p: Pid, job: Job)
    requires job.Mutate? && Reading(Exec(s, run), x, p, job, Idle)
    ensures Reading(Exec(s, SoloReads(run, p)), x, p, job, ReadsTo(x.files, job))
  {
    var go := Step(p, false);
    FiveReads(x.files, job);
    var one := ReadNext(x.files, job, Idle);
    var two := ReadNext(x.files, job, one);
    var three := ReadNext(x.files, job, two);
    var four := ReadNext(x.files, job, three);
    ReadStep(s, run, x, p, job, Idle);
    ReadStep(s, run + [go], x, p, job, one);
    ReadStep(s, run + [go] + [go], x, p, job, two);
    ReadStep(s, run + [go] + [go] + [go], x, p, job, three);
    ReadStep(s, run + [go] + [go] + [go] + [go], x, p, job, four);
  }

  lemma BundleRejected(t: Sys, x: Sys, p: Pid, job: Job, c: Commit)
    requires LoadManifest(x.files).Ok? && With(t, x, p, job, CheckedAt(x.files, c)) && SameStore(t, x)
    requires t.lock == Lock({}, Some(p)) && !ValidRecipients(c.meta.recipients)
    ensures Stopped(Apply(t, Step(p, false)), x, p, job)
  {
    assert Apply(t, Step(p, false)) == StepBundle(t, p, CheckedAt(x.files, c), false);
  }

  /** A prepared commit whose recipients are refused by the encryption. */
  lemma {:induction false} SoloRejected(s: Sys, run: seq<Action>, x: Sys, p: Pid, job: Job, c: Commit)
    requires Reading(Exec(s, run), x, p, job, Ready(c)) && job.Mutate?
    requires LoadManifest(x.files).Ok? && Admit(LoadManifest(x.files).value, c, false).None?
    requires !ValidRecipients(c.meta.recipients)
    ensures Stopped(Exec(s, SoloWrites(run, p)), x, p, job)
  {
    var go := Step(p, false);
    MovesWith(Exec(s, run), x, p, job, Ready(c), ExclusiveHeld(c));
    GoesReady(s, run, p, c);
    var r1 := run + [go];
    MovesWith(Exec(s, r1), x, p, job, ExclusiveHeld(c), CheckedAt(x.files, c));
    GoesCheck(s, r1, p, c);
    var r2 := r1 + [go];
    ExecSnoc(s, r2, go);
    BundleRejected(Exec(s, r2), x, p, job, c);
    StaysStopped(s, r2 + [go], x, p, job);
    StaysStopped(s, r2 + [go] + [go], x, p, job);
  }

  /** What is prepared from the files as they are is admitted. */
  lemma PreparedAdmitted(files: FileMap, job: Job)
    requires job.Mutate? && Prepared(files, job).Ok?
    ensures LoadManifest(files).Ok? && Admit(LoadManifest(files).value, Prepared(files, job).value, false).None?
  {
  }

  /** An operation whose steps run alone ends as the same operation in one call: with its commit, or
      refused and without a trace. */
  lemma {:induction false} SoloEnds(s: Sys, run: seq<Action>, p: Pid, job: Job)
    requires Exec(s, run).lock == FREE && p !in Exec(s, run).procs && job.Mutate?
    ensures var x, t := Exec(s, run), Exec(s, Solo(run, p, job));
      var r := RunJob(Disk(x.files, x.nextId), job, NO_FAULTS);
      && Disk(t.files, t.nextId) == r.disk && t.lock == FREE
      && With(t, x, p, job, if r.error.None? then CommitDone else Failed)
  {
    var x := Exec(s, run);
    var spawned := run + [Spawn(p, job)];
    var read := SoloReads(spawned, p);
    GoesSpawn(s, run, p, job);
    SoloReadsAll(s, spawned, x, p, job);
    if CheckJob(job).Some? || Prepared(x.files, job).Err? {
      StaysStopped5(s, read, x, p, job);
    } else {
      var c := Prepared(x.files, job).value;
      PreparedAdmitted(x.files, job);
      if ValidRecipients(c.meta.recipients) {
        SoloCommits(s, run, p, job, c);
      } else {
        SoloRejected(s, read, x, p, job, c);
      }
    }
  }
}
