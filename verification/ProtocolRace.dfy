/** Why serialisability needs its hypothesis. From every sound store with a readable namespace
    there are runs in which one commit fails after its bundle write and is rolled back without
    trace, and another operation, having read the bundle in between, passes the version check
    and publishes the aborted change. */
module ProtocolRace {
  import opened Strings
  import opened Validate
  import opened Files
  import opened Edits
  import opened Transactions
  import opened StoreLaws
  import opened Protocol
  import opened ProtocolSerial
  import opened ProtocolSolo
  import Dotenv
  import DotenvLaws

  /** Two operations on one namespace. The first will be rolled back. */
  datatype Race = Race(first: Job, second: Job) {
    predicate Ok() {
      && first.Mutate? && second.Mutate? && second.app == first.app && second.env == first.env
      && CheckJob(first).None? && CheckJob(second).None?
    }
  }

  /** The first operation computes `c1` from the bundle `plain`, and the second one computes `c2`
      from the text of `c1`. */
  ghost predicate Racing(r: Race, files: FileMap, meta: EnvMeta, plain: string, o1: OriginMap, o2: OriginMap,
                         c1: Commit, c2: Commit)
  {
    && r.Ok() && Sound(files) && FindEntry(files, r.first.app, r.first.env) == Ok(meta)
    && ReadPlain(files, r.first.who, meta) == Ok(plain) && Dotenv.Parsed(plain).Ok?
    && EditOrigins(files, r.first) == Ok(o1) && EditPlain(r.first, meta, plain, o1) == Ok(c1)
    && c1.origins.Some? && Dotenv.Parsed(c1.plain).Ok? && r.second.who in c1.meta.recipients
    && EditOrigins(files, r.second) == Ok(o2) && EditPlain(r.second, meta, c1.plain, o2) == Ok(c2)
  }

  // ---- scenes -----------------------------------------------------------------------------------------

  /** The system with the two operations at given points. */
  ghost predicate Scene(s: Sys, r: Race, d: Disk, lock: Lock, pc0: Pc, pc1: Pc, committed: FileMap, log: seq<Event>) {
    && s.files == d.files && s.nextId == d.nextId && s.lock == lock
    && 0 in s.procs && s.procs[0] == Proc(r.first, pc0)
    && 1 in s.procs && s.procs[1] == Proc(r.second, pc1)
    && s.committed == committed && s.log == log
  }

  const GO0 := Step(0, false)
  const GO1 := Step(1, false)

  // ---- the phases of the run --------------------------------------------------------------------------

  function Arrive(r: Race): seq<Action> {
    [Spawn(0, r.first), Spawn(1, r.second)]
  }

  lemma {:induction false} ArrivePhase(r: Race, s: Sys)
    requires Start(s)
    ensures Scene(Exec(s, Arrive(r)), r, Disk(s.files, s.nextId), FREE, Idle, Idle, s.files, [])
  {
    var a, b := Spawn(0, r.first), Spawn(1, r.second);
    GoesSpawn(s, [], 0, r.first);
    assert [] + [a] == [a];
    GoesSpawn(s, [a], 1, r.second);
    assert [a] + [b] == Arrive(r);
  }

  function Load(run: seq<Action>): seq<Action> {
    run + [GO0] + [GO0] + [GO1] + [GO1] + [GO0] + [GO1]
  }

  /** Both operations load the same entry and check the hash. */
  lemma LoadPhase(r: Race, s: Sys, run: seq<Action>, d: Disk, meta: EnvMeta)
    requires r.Ok()
    requires FindEntry(d.files, r.first.app, r.first.env) == Ok(meta) && HashCheck(d.files, meta).None?
    requires Scene(Exec(s, run), r, d, FREE, Idle, Idle, d.files, [])
    ensures Scene(Exec(s, Load(run)), r, d, FREE, Hashed(meta), Hashed(meta), d.files, [])
  {
    var r1 := run + [GO0];
    GoesIdle(s, run, 0);
    assert Scene(Exec(s, r1), r, d, Lock({0}, None), SharedHeld, Idle, d.files, []);
    var r2 := r1 + [GO0];
    GoesShared(s, r1, 0, meta);
    assert Scene(Exec(s, r2), r, d, FREE, Loaded(meta), Idle, d.files, []);
    var r3 := r2 + [GO1];
    GoesIdle(s, r2, 1);
    assert Scene(Exec(s, r3), r, d, Lock({1}, None), Loaded(meta), SharedHeld, d.files, []);
    var r4 := r3 + [GO1];
    GoesShared(s, r3, 1, meta);
    assert Scene(Exec(s, r4), r, d, FREE, Loaded(meta), Loaded(meta), d.files, []);
    var r5 := r4 + [GO0];
    GoesHash(s, r4, 0, meta);
    assert Scene(Exec(s, r5), r, d, FREE, Hashed(meta), Loaded(meta), d.files, []);
    GoesHash(s, r5, 1, meta);
  }

  function Prepare(run: seq<Action>): seq<Action> {
    run + [GO0] + [GO0] + [GO0]
  }

  lemma PreparePhase(r: Race, s: Sys, run: seq<Action>, d: Disk, meta: EnvMeta, plain: string, origins: OriginMap,
                     c: Commit)
    requires r.Ok() && ReadPlain(d.files, r.first.who, meta) == Ok(plain) && Dotenv.Parsed(plain).Ok?
    requires EditOrigins(d.files, r.first) == Ok(origins) && EditPlain(r.first, meta, plain, origins) == Ok(c)
    requires Scene(Exec(s, run), r, d, FREE, Hashed(meta), Hashed(meta), d.files, [])
    ensures Scene(Exec(s, Prepare(run)), r, d, Lock({}, Some(0)), ExclusiveHeld(c), Hashed(meta), d.files, [])
  {
    var h := Hashed(meta);
    var r1 := run + [GO0];
    GoesDecrypt(s, run, 0, meta, plain);
    assert Scene(Exec(s, r1), r, d, FREE, Decrypted(meta, plain), h, d.files, []);
    var r2 := r1 + [GO0];
    GoesEdit(s, r1, 0, meta, plain, origins, c);
    assert Scene(Exec(s, r2), r, d, FREE, Ready(c), h, d.files, []);
    GoesReady(s, r2, 0, c);
  }

  function Write(run: seq<Action>): seq<Action> {
    run + [GO0] + [GO0] + [GO1]
  }

  /** The first operation writes its bundle and the second one decrypts it. */
  lemma WritePhase(r: Race, s: Sys, run: seq<Action>, d: Disk, meta: EnvMeta, c: Commit, cipher: Cipher)
    requires r.Ok() && LoadManifest(d.files).Ok? && Dotenv.Parsed(c.plain).Ok? && cipher == CipherFor(c, d.nextId)
    requires Admit(LoadManifest(d.files).value, c, false).None? && ValidRecipients(c.meta.recipients)
    requires r.second.who in c.meta.recipients && meta.file == c.meta.file
    requires Scene(Exec(s, run), r, d, Lock({}, Some(0)), ExclusiveHeld(c), Hashed(meta), d.files, [])
    ensures Scene(Exec(s, Write(run)), r, Disk(PutBundle(d.files, c, cipher), d.nextId + 1), Lock({}, Some(0)),
                  WrittenAt(d.files, c, cipher), Decrypted(meta, c.plain), d.files, [])
  {
    var held := Lock({}, Some(0));
    var r1 := run + [GO0];
    GoesCheck(s, run, 0, c);
    assert Scene(Exec(s, r1), r, d, held, CheckedAt(d.files, c), Hashed(meta), d.files, []);
    var d' := Disk(PutBundle(d.files, c, cipher), d.nextId + 1);
    var r2 := r1 + [GO0];
    GoesBundle(s, r1, 0, c, cipher);
    assert Scene(Exec(s, r2), r, d', held, WrittenAt(d.files, c, cipher), Hashed(meta), d.files, []);
    GoesDecrypt(s, r2, 1, meta, c.plain);
  }

  function Abort(run: seq<Action>): seq<Action> {
    run + [Step(0, true)] + [GO0] + [GO0]
  }

  /** The first operation fails at its origins write and rolls back. */
  lemma AbortPhase(r: Race, s: Sys, run: seq<Action>, was: FileMap, id: nat, c: Commit, cipher: Cipher, pc1: Pc)
    requires LoadManifest(was).Ok? && c.origins.Some? && c.meta.file != OriginsPath(c.app, c.env)
    requires Scene(Exec(s, run), r, Disk(PutBundle(was, c, cipher), id), Lock({}, Some(0)),
                   WrittenAt(was, c, cipher), pc1, was, [])
    ensures Scene(Exec(s, Abort(run)), r, Disk(was, id), FREE, Failed, pc1, was, [])
  {
    var bundle, origins := Snapshot(was, c.meta.file), Snapshot(was, OriginsPath(c.app, c.env));
    var held := Lock({}, Some(0));
    var r1 := run + [Step(0, true)];
    GoesOrigins(s, run, 0, WrittenAt(was, c, cipher), true);
    assert Scene(Exec(s, r1), r, Disk(PutBundle(was, c, cipher), id), held, UndoBundle(c, bundle, origins), pc1, was, []);
    var r2 := r1 + [GO0];
    RestoreUndoes(was, c.meta.file, Bundle(cipher));
    GoesUndo(s, r1, 0, UndoBundle(c, bundle, origins));
    assert Scene(Exec(s, r2), r, Disk(was, id), held, UndoOrigins(c, origins), pc1, was, []);
    RestoreUndoes(was, OriginsPath(c.app, c.env), Bundle(cipher));
    GoesUndo(s, r2, 0, UndoOrigins(c, origins));
  }

  function Resume(run: seq<Action>): seq<Action> {
    run + [GO1] + [GO1] + [GO1]
  }

  /** The second operation edits the aborted text and passes the version check. */
  lemma ResumePhase(r: Race, s: Sys, run: seq<Action>, d: Disk, meta: EnvMeta, plain: string, origins: OriginMap,
                    c: Commit)
    requires r.Ok() && LoadManifest(d.files).Ok? && Admit(LoadManifest(d.files).value, c, false).None?
    requires EditOrigins(d.files, r.second) == Ok(origins) && EditPlain(r.second, meta, plain, origins) == Ok(c)
    requires Scene(Exec(s, run), r, d, FREE, Failed, Decrypted(meta, plain), d.files, [])
    ensures Scene(Exec(s, Resume(run)), r, d, Lock({}, Some(1)), Failed, CheckedAt(d.files, c), d.files, [])
  {
    var r1 := run + [GO1];
    GoesEdit(s, run, 1, meta, plain, origins, c);
    assert Scene(Exec(s, r1), r, d, FREE, Failed, Ready(c), d.files, []);
    var r2 := r1 + [GO1];
    GoesReady(s, r1, 1, c);
    assert Scene(Exec(s, r2), r, d, Lock({}, Some(1)), Failed, ExclusiveHeld(c), d.files, []);
    GoesCheck(s, r2, 1, c);
  }

  function Publish(run: seq<Action>): seq<Action> {
    run + [GO1] + [GO1] + [GO1]
  }

  lemma PublishPhase(r: Race, s: Sys, run: seq<Action>, d: Disk, c: Commit, cipher: Cipher)
    requires LoadManifest(d.files).Ok? && ValidRecipients(c.meta.recipients)
    requires cipher == CipherFor(c, d.nextId)
    requires Scene(Exec(s, run), r, d, Lock({}, Some(1)), Failed, CheckedAt(d.files, c), d.files, [])
    ensures var after := Committed(d.files, c, cipher);
      Scene(Exec(s, Publish(run)), r, Disk(after, d.nextId + 1), FREE, Failed, CommitDone, after,
            [Event(1, r.second, c.meta.version)])
  {
    var held := Lock({}, Some(1));
    var r1 := run + [GO1];
    var files1 := PutBundle(d.files, c, cipher);
    GoesBundle(s, run, 1, c, cipher);
    assert Scene(Exec(s, r1), r, Disk(files1, d.nextId + 1), held, Failed, WrittenAt(d.files, c, cipher), d.files, []);
    if c.origins.Some? {
      PublishWithOrigins(r, s, r1, d, c, cipher);
    } else {
      PublishManifestOnly(r, s, r1, d, c, cipher);
    }
  }

  lemma PublishWithOrigins(r: Race, s: Sys, run: seq<Action>, d: Disk, c: Commit, cipher: Cipher)
    requires LoadManifest(d.files).Ok? && c.origins.Some?
    requires Scene(Exec(s, run), r, Disk(PutBundle(d.files, c, cipher), d.nextId + 1), Lock({}, Some(1)), Failed,
                   WrittenAt(d.files, c, cipher), d.files, [])
    ensures var after := Committed(d.files, c, cipher);
      Scene(Exec(s, run + [GO1] + [GO1]), r, Disk(after, d.nextId + 1), FREE, Failed, CommitDone, after,
            [Event(1, r.second, c.meta.version)])
  {
    var done := OriginsDone(c, cipher, LoadManifest(d.files).value, Snapshot(d.files, c.meta.file),
                            Snapshot(d.files, OriginsPath(c.app, c.env)));
    GoesOrigins(s, run, 1, WrittenAt(d.files, c, cipher), false);
    assert Scene(Exec(s, run + [GO1]), r, Disk(PutOrigins(PutBundle(d.files, c, cipher), c), d.nextId + 1),
                 Lock({}, Some(1)), Failed, done, d.files, []);
    GoesManifest(s, run + [GO1], 1, done);
  }

  lemma PublishManifestOnly(r: Race, s: Sys, run: seq<Action>, d: Disk, c: Commit, cipher: Cipher)
    requires LoadManifest(d.files).Ok? && c.origins.None?
    requires Scene(Exec(s, run), r, Disk(PutBundle(d.files, c, cipher), d.nextId + 1), Lock({}, Some(1)), Failed,
                   WrittenAt(d.files, c, cipher), d.files, [])
    ensures var after := Committed(d.files, c, cipher);
      Scene(Exec(s, run + [GO1] + [GO1]), r, Disk(after, d.nextId + 1), FREE, Failed, CommitDone, after,
            [Event(1, r.second, c.meta.version)])
  {
    GoesManifestOnly(s, run, 1, WrittenAt(d.files, c, cipher));
    GoesNowhere(s, run + [GO1], 1);
  }

  // ---- the whole run ----------------------------------------------------------------------------------

  /** Up to the failing write. */
  function Before(r: Race): seq<Action> {
    Write(Prepare(Load(Arrive(r))))
  }

  function Whole(r: Race): seq<Action> {
    Publish(Resume(Abort(Before(r))))
  }

  /** What the phases need to know about the files. */
  lemma RaceFacts(r: Race, files: FileMap, meta: EnvMeta, plain: string, o1: OriginMap, o2: OriginMap, c1: Commit,
                  c2: Commit)
    requires Racing(r, files, meta, plain, o1, o2, c1, c2)
    ensures LoadManifest(files).Ok? && HashCheck(files, meta).None?
    ensures CommitShape(c1) && CommitShape(c2) && c1.meta.file == meta.file == c2.meta.file
    ensures Admit(LoadManifest(files).value, c1, false).None? && Admit(LoadManifest(files).value, c2, false).None?
    ensures c1.app == r.first.app && c1.env == r.first.env
    ensures c2.app == r.first.app && c2.env == r.first.env
  {
    EntryOf(files, r.first.app, r.first.env);
    EditPlainShape(r.first, meta, plain, o1);
    EditPlainShape(r.second, meta, c1.plain, o2);
  }

  lemma BeforeScene(r: Race, s: Sys, meta: EnvMeta, plain: string, o1: OriginMap, o2: OriginMap, c1: Commit, c2: Commit)
    requires Start(s) && Racing(r, s.files, meta, plain, o1, o2, c1, c2) && LoadManifest(s.files).Ok?
    ensures var cipher := CipherFor(c1, s.nextId);
      Scene(Exec(s, Before(r)), r, Disk(PutBundle(s.files, c1, cipher), s.nextId + 1), Lock({}, Some(0)),
            WrittenAt(s.files, c1, cipher), Decrypted(meta, c1.plain), s.files, [])
  {
    var d := Disk(s.files, s.nextId);
    RaceFacts(r, s.files, meta, plain, o1, o2, c1, c2);
    ArrivePhase(r, s);
    LoadPhase(r, s, Arrive(r), d, meta);
    PreparePhase(r, s, Load(Arrive(r)), d, meta, plain, o1, c1);
    WritePhase(r, s, Prepare(Load(Arrive(r))), d, meta, c1, CipherFor(c1, s.nextId));
  }

  lemma AfterAbort(r: Race, s: Sys, run: seq<Action>, d: Disk, meta: EnvMeta, plain: string, origins: OriginMap,
                   c: Commit)
    requires r.Ok() && LoadManifest(d.files).Ok? && Admit(LoadManifest(d.files).value, c, false).None?
    requires EditOrigins(d.files, r.second) == Ok(origins) && EditPlain(r.second, meta, plain, origins) == Ok(c)
    requires ValidRecipients(c.meta.recipients)
    requires Scene(Exec(s, run), r, d, FREE, Failed, Decrypted(meta, plain), d.files, [])
    ensures var after := Committed(d.files, c, CipherFor(c, d.nextId));
      Scene(Exec(s, Publish(Resume(run))), r, Disk(after, d.nextId + 1), FREE, Failed, CommitDone, after,
            [Event(1, r.second, c.meta.version)])
  {
    ResumePhase(r, s, run, d, meta, plain, origins, c);
    PublishPhase(r, s, Resume(run), d, c, CipherFor(c, d.nextId));
  }

  lemma WholeScene(r: Race, s: Sys, meta: EnvMeta, plain: string, o1: OriginMap, o2: OriginMap, c1: Commit, c2: Commit)
    requires Start(s) && Racing(r, s.files, meta, plain, o1, o2, c1, c2) && LoadManifest(s.files).Ok?
    ensures var after := Committed(s.files, c2, CipherFor(c2, s.nextId + 1));
      Scene(Exec(s, Whole(r)), r, Disk(after, s.nextId + 2), FREE, Failed, CommitDone, after,
            [Event(1, r.second, c2.meta.version)])
  {
    BeforeScene(r, s, meta, plain, o1, o2, c1, c2);
    RaceFacts(r, s.files, meta, plain, o1, o2, c1, c2);
    PathsDistinct(c1.app, c1.env, c1.app, c1.env);
    AbortPhase(r, s, Before(r), s.files, s.nextId + 1, c1, CipherFor(c1, s.nextId), Decrypted(meta, c1.plain));
    AfterAbort(r, s, Abort(Before(r)), Disk(s.files, s.nextId + 1), meta, c1.plain, o2, c2);
  }

  lemma OneFault(r: Race)
    ensures var n := |Before(r)|;
      && n < |Whole(r)| && Whole(r)[..n] == Before(r) && Whole(r)[n] == Step(0, true)
      && forall i :: 0 <= i < |Whole(r)| && i != n && Whole(r)[i].Step? ==> !Whole(r)[i].fail
  {
    assert forall a :: a in Load(Arrive(r)) && a.Step? ==> !a.fail;
    assert forall a :: a in Before(r) && a.Step? ==> !a.fail;
    assert Whole(r) == Before(r) + [Step(0, true)] + [GO0, GO0] + [GO1, GO1, GO1] + [GO1, GO1, GO1];
  }

  lemma OriginsFaultIsContained(s: Sys, a: Action)
    requires a.Step? && a.fail && a.pid in s.procs && s.procs[a.pid].pc.BundleDone? && s.procs[a.pid].pc.c.origins.Some?
    ensures !Uncontained(s, a) && FailsAfterWrite(s, a)
  {
  }

  lemma NoFault(s: Sys, a: Action)
    requires a.Step? ==> !a.fail
    ensures !Uncontained(s, a)
  {
  }

  /** Only the origins write of the first operation fails, and its rollback succeeds. */
  lemma RaceContained(r: Race, s: Sys, meta: EnvMeta, plain: string, o1: OriginMap, o2: OriginMap, c1: Commit,
                      c2: Commit)
    requires Start(s) && Racing(r, s.files, meta, plain, o1, o2, c1, c2) && LoadManifest(s.files).Ok?
    ensures ContainedRun(s, Whole(r)) && !CleanRun(s, Whole(r))
  {
    var run, n := Whole(r), |Before(r)|;
    BeforeScene(r, s, meta, plain, o1, o2, c1, c2);
    OneFault(r);
    OriginsFaultIsContained(Exec(s, run[..n]), run[n]);
    forall i | 0 <= i < |run|
      ensures !Uncontained(Exec(s, run[..i]), run[i])
    {
      if i != n {
        NoFault(Exec(s, run[..i]), run[i]);
      }
    }
  }

  ghost predicate FirstFailed(t: Sys, r: Race) {
    && 0 in t.procs && t.procs[0] == Proc(r.first, Failed)
    && |t.log| == 1 && t.log[0].job == r.second
    && t.lock == FREE && t.files == t.committed
  }

  /** For any two operations on a readable namespace, the first one a value operation: there is a
      run with one failing write, a rollback that succeeds, and one commit in its log, in which
      the second operation has committed what it computed from the text of the aborted one. */
  lemma {:induction false} AbortedIsPublished(r: Race, s: Sys, meta: EnvMeta, plain: string, o1: OriginMap,
                                              o2: OriginMap, c1: Commit, c2: Commit)
    requires Start(s) && Racing(r, s.files, meta, plain, o1, o2, c1, c2)
    ensures ContainedRun(s, Whole(r)) && !CleanRun(s, Whole(r))
    ensures FirstFailed(Exec(s, Whole(r)), r) && CommitShape(c2)
    ensures LoadManifest(s.files).Ok?
    ensures Exec(s, Whole(r)).committed == Committed(s.files, c2, CipherFor(c2, s.nextId + 1))
  {
    RaceFacts(r, s.files, meta, plain, o1, o2, c1, c2);
    RaceContained(r, s, meta, plain, o1, o2, c1, c2);
    WholeScene(r, s, meta, plain, o1, o2, c1, c2);
  }

  // ---- a value that nobody set ------------------------------------------------------------------------

  /** Two `Set` operations on different keys. */
  datatype TwoSets = TwoSets(app: string, env: string, who: string, k1: string, v1: string, k2: string, v2: string,
                             origin: Origin, at: string, values: Dotenv.Values)
  {
    function Setting(k: string, v: string): Job { Mutate(app, env, who, Set(k, v, origin), at) }

    function Jobs(): Race { Race(Setting(k1, v1), Setting(k2, v2)) }

    /** What the namespace would hold if the first operation had succeeded. */
    function Aborted(): Dotenv.Values { values[k1 := v1] }

    ghost predicate Possible(files: FileMap) {
      && Sound(files)
      && ValidName(app) && ValidName(env)
      && EntryAt(files, app, env).Some?
      && Prints(EntryAt(files, app, env).value.plain, values)
      && who in EntryAt(files, app, env).value.recipients
      && Dotenv.ValidKey(k1) && Dotenv.ValidKey(k2) && k1 != k2 && k1 !in values
      && Dotenv.Fits(values) && Dotenv.Fits(Aborted()) && Dotenv.Fits(values[k2 := v2])
    }

    /** The commit of `Set(k, v)` computed from a bundle that holds `base`. */
    function CommitOf(meta: EnvMeta, origins: OriginMap, base: Dotenv.Values, k: string, v: string): Commit {
      Commit(app, env, meta.(updatedAt := at, version := meta.version + 1), meta.version,
             Dotenv.Encoded(base[k := v]), Some(PruneOrigins(origins[k := origin], base[k := v])))
    }
  }

  lemma EditedCommit(r: TwoSets, meta: EnvMeta, origins: OriginMap, base: Dotenv.Values, k: string, v: string)
    requires Dotenv.ValidKeys(base) && Dotenv.Fits(base) && Dotenv.ValidKey(k)
    ensures Dotenv.Parsed(Dotenv.Encoded(base)).Ok?
    ensures EditPlain(r.Setting(k, v), meta, Dotenv.Encoded(base), origins) == Ok(r.CommitOf(meta, origins, base, k, v))
  {
    DotenvLaws.RoundTrip(base);
  }

  lemma ReadableEntry(files: FileMap, app: string, env: string, who: string)
    requires Sound(files) && EntryAt(files, app, env).Some? && who in EntryAt(files, app, env).value.recipients
    ensures FindEntry(files, app, env).Ok? && LoadOrigins(files, app, env).Ok?
    ensures var meta, e := FindEntry(files, app, env).value, EntryAt(files, app, env).value;
      && meta.recipients == e.recipients && LoadOrigins(files, app, env).value == e.origins
      && HashCheck(files, meta).None? && ReadPlain(files, who, meta) == Ok(e.plain)
      && EntrySound(files, app, env, meta)
  {
    EntryOf(files, app, env);
  }

  lemma {:induction false} TwoSetsRace(r: TwoSets, files: FileMap, meta: EnvMeta, origins: OriginMap)
    requires r.Possible(files) && FindEntry(files, r.app, r.env) == Ok(meta)
    requires LoadOrigins(files, r.app, r.env) == Ok(origins)
    ensures Racing(r.Jobs(), files, meta, Dotenv.Encoded(r.values), origins, origins,
                   r.CommitOf(meta, origins, r.values, r.k1, r.v1), r.CommitOf(meta, origins, r.Aborted(), r.k2, r.v2))
  {
    ReadableEntry(files, r.app, r.env, r.who);
    EditedCommit(r, meta, origins, r.values, r.k1, r.v1);
    EditedCommit(r, meta, origins, r.Aborted(), r.k2, r.v2);
    SetsRace(r, files, meta, origins);
  }

  lemma SetsRace(r: TwoSets, files: FileMap, meta: EnvMeta, origins: OriginMap)
    requires Sound(files) && ValidName(r.app) && ValidName(r.env) && FindEntry(files, r.app, r.env) == Ok(meta)
    requires LoadOrigins(files, r.app, r.env) == Ok(origins) && r.who in meta.recipients
    requires ReadPlain(files, r.who, meta) == Ok(Dotenv.Encoded(r.values))
    requires Dotenv.Parsed(Dotenv.Encoded(r.values)).Ok? && Dotenv.Parsed(Dotenv.Encoded(r.Aborted())).Ok?
    requires EditPlain(r.Setting(r.k1, r.v1), meta, Dotenv.Encoded(r.values), origins)
      == Ok(r.CommitOf(meta, origins, r.values, r.k1, r.v1))
    requires EditPlain(r.Setting(r.k2, r.v2), meta, Dotenv.Encoded(r.Aborted()), origins)
      == Ok(r.CommitOf(meta, origins, r.Aborted(), r.k2, r.v2))
    ensures Racing(r.Jobs(), files, meta, Dotenv.Encoded(r.values), origins, origins,
                   r.CommitOf(meta, origins, r.values, r.k1, r.v1), r.CommitOf(meta, origins, r.Aborted(), r.k2, r.v2))
  {
  }

  lemma {:induction false} SecondPrepares(r: TwoSets, files: FileMap, meta: EnvMeta, origins: OriginMap)
    requires r.Possible(files) && FindEntry(files, r.app, r.env) == Ok(meta)
    requires LoadOrigins(files, r.app, r.env) == Ok(origins)
    ensures Prepared(files, r.Setting(r.k2, r.v2)) == Ok(r.CommitOf(meta, origins, r.values, r.k2, r.v2))
  {
    ReadableEntry(files, r.app, r.env, r.who);
    EditedCommit(r, meta, origins, r.values, r.k2, r.v2);
  }

  /** What the second operation does when it runs alone. */
  lemma SecondAlone(r: TwoSets, d: Disk, meta: EnvMeta, origins: OriginMap)
    requires r.Possible(d.files) && FindEntry(d.files, r.app, r.env) == Ok(meta)
    requires LoadOrigins(d.files, r.app, r.env) == Ok(origins)
    ensures var c := r.CommitOf(meta, origins, r.values, r.k2, r.v2);
      && CommitShape(c)
      && RunJob(d, r.Setting(r.k2, r.v2), NO_FAULTS).disk.files == Committed(d.files, c, CipherFor(c, d.nextId))
  {
    SecondPrepares(r, d.files, meta, origins);
    PreparedShape(d.files, r.Setting(r.k2, r.v2));
    CommitSucceeds(d, r.CommitOf(meta, origins, r.values, r.k2, r.v2), false);
  }

  lemma NotEqualPlain(r: TwoSets)
    requires Dotenv.ValidKeys(r.values) && Dotenv.ValidKey(r.k1) && Dotenv.ValidKey(r.k2)
    requires r.k1 != r.k2 && r.k1 !in r.values && Dotenv.Fits(r.values[r.k2 := r.v2])
    ensures Dotenv.Encoded(r.values[r.k2 := r.v2]) != Dotenv.Encoded(r.Aborted()[r.k2 := r.v2])
  {
    assert r.k1 in r.Aborted()[r.k2 := r.v2] && r.k1 !in r.values[r.k2 := r.v2];
    if Dotenv.Encoded(r.values[r.k2 := r.v2]) == Dotenv.Encoded(r.Aborted()[r.k2 := r.v2]) {
      DotenvLaws.EncodedInjective(r.values[r.k2 := r.v2], r.Aborted()[r.k2 := r.v2]);
      assert false;
    }
  }

  ghost predicate Holds(files: FileMap, app: string, env: string, values: Dotenv.Values) {
    EntryAt(files, app, env).Some? && Prints(EntryAt(files, app, env).value.plain, values)
  }

  lemma ReplayFirst(d: Disk, log: seq<Event>)
    requires |log| == 1 && !log[0].job.Read?
    ensures Replay(d, log) == RunJob(d, log[0].job, NO_FAULTS).disk
  {
    assert log[..0] == [];
  }

  lemma DirtyStore(r: TwoSets, s: Sys)
    requires Start(s) && r.Possible(s.files)
    ensures var run := Whole(r.Jobs());
      ContainedRun(s, run) && !CleanRun(s, run) && FirstFailed(Exec(s, run), r.Jobs())
    ensures Holds(Exec(s, Whole(r.Jobs())).committed, r.app, r.env, r.values[r.k1 := r.v1][r.k2 := r.v2])
  {
    ReadableEntry(s.files, r.app, r.env, r.who);
    var meta := FindEntry(s.files, r.app, r.env).value;
    var origins := LoadOrigins(s.files, r.app, r.env).value;
    TwoSetsRace(r, s.files, meta, origins);
    var c := r.CommitOf(meta, origins, r.Aborted(), r.k2, r.v2);
    AbortedIsPublished(r.Jobs(), s, meta, Dotenv.Encoded(r.values), origins, origins,
                       r.CommitOf(meta, origins, r.values, r.k1, r.v1), c);
    CommittedView(s.files, c, s.nextId + 1, r.app, r.env);
  }

  lemma SerialStore(r: TwoSets, d: Disk)
    requires r.Possible(d.files)
    ensures Holds(RunJob(d, r.Setting(r.k2, r.v2), NO_FAULTS).disk.files, r.app, r.env, r.values[r.k2 := r.v2])
  {
    ReadableEntry(d.files, r.app, r.env, r.who);
    var meta := FindEntry(d.files, r.app, r.env).value;
    var origins := LoadOrigins(d.files, r.app, r.env).value;
    SecondAlone(r, d, meta, origins);
    CommittedView(d.files, r.CommitOf(meta, origins, r.values, r.k2, r.v2), d.nextId, r.app, r.env);
  }

  /** Without the hypothesis the store is not serialisable: one reader before one rollback is enough.
      The only operation that succeeds is the second one; run alone it leaves no trace of `k1`, but
      the store ends up holding the value that the first, failed and fully rolled back, operation
      had tried to set. */
  lemma DirtyRead(r: TwoSets, s: Sys)
    requires Start(s) && r.Possible(s.files)
    ensures var run := Whole(r.Jobs());
      ContainedRun(s, run) && !QuietRun(s, run) && FirstFailed(Exec(s, run), r.Jobs())
    ensures Holds(Exec(s, Whole(r.Jobs())).committed, r.app, r.env, r.values[r.k1 := r.v1][r.k2 := r.v2])
    ensures Holds(Replay(Disk(s.files, s.nextId), Exec(s, Whole(r.Jobs())).log).files, r.app, r.env, r.values[r.k2 := r.v2])
    ensures !SameView(Exec(s, Whole(r.Jobs())).committed,
                      Replay(Disk(s.files, s.nextId), Exec(s, Whole(r.Jobs())).log).files)
  {
    var d := Disk(s.files, s.nextId);
    DirtyStore(r, s);
    SerialStore(r, d);
    var t := Exec(s, Whole(r.Jobs()));
    ReplayFirst(d, t.log);
    NotEqualPlain(r);
    DifferentView(t.committed, Replay(d, t.log).files, r.app, r.env);
    NotQuiet(s, Whole(r.Jobs()));
  }

  lemma NotQuiet(s: Sys, run: seq<Action>)
    requires Start(s) && Sound(s.files)
    requires !SameView(Exec(s, run).committed, Replay(Disk(s.files, s.nextId), Exec(s, run).log).files)
    ensures !QuietRun(s, run)
  {
    if QuietRun(s, run) {
      Serialisable(s, run);
    }
  }

  lemma DifferentView(a: FileMap, b: FileMap, app: string, env: string)
    requires EntryAt(a, app, env) != EntryAt(b, app, env)
    ensures !SameView(a, b)
  {
  }

  // ---- an origin that outlives its key ----------------------------------------------------------------

  /** A `Delete` that is rolled back and the addition of a recipient. */
  datatype DropAndAdd = DropAndAdd(app: string, env: string, who: string, key: string, recipient: string,
                                   at: string, values: Dotenv.Values)
  {
    function Dropping(): Job { Mutate(app, env, who, Delete(key), at) }

    function Adding(): Job { Mutate(app, env, who, AddRecipient(recipient), at) }

    function Jobs(): Race { Race(Dropping(), Adding()) }

    function Rest(): Dotenv.Values { values - {key} }

    ghost predicate Possible(files: FileMap) {
      && Sound(files)
      && ValidName(app) && ValidName(env) && ValidRecipient(recipient)
      && EntryAt(files, app, env).Some?
      && Prints(EntryAt(files, app, env).value.plain, values)
      && who in EntryAt(files, app, env).value.recipients
      && key in EntryAt(files, app, env).value.origins && key in values
      && Dotenv.Fits(values) && Dotenv.Fits(Rest())
    }
  }

  lemma DropEdits(r: DropAndAdd, meta: EnvMeta, origins: OriginMap)
    requires Dotenv.ValidKeys(r.values) && Dotenv.Fits(r.values) && r.key in r.values
    ensures Dotenv.Parsed(Dotenv.Encoded(r.values)).Ok?
    ensures EditPlain(r.Dropping(), meta, Dotenv.Encoded(r.values), origins)
         == Ok(CommitFor(r.Dropping(), meta, Body(meta.recipients, r.Rest(), origins - {r.key})))
  {
    DotenvLaws.RoundTrip(r.values);
    DeleteEdits(r, meta.recipients, origins);
    EditPlainIs(r.Dropping(), meta, Dotenv.Encoded(r.values), origins, r.values,
                Body(meta.recipients, r.Rest(), origins - {r.key}));
  }

  lemma DeleteEdits(r: DropAndAdd, rs: seq<string>, origins: OriginMap)
    requires Dotenv.ValidKey(r.key) && r.key in r.values
    ensures Edit(r.Dropping().op, Body(rs, r.values, origins)) == Ok(Body(rs, r.Rest(), origins - {r.key}))
  {
  }

  lemma EditPlainIs(job: Job, meta: EnvMeta, plain: string, origins: OriginMap, values: Dotenv.Values, b: Body)
    requires job.Mutate? && Dotenv.Parsed(plain) == Ok(values)
    requires Edit(job.op, Body(meta.recipients, values, origins)) == Ok(b)
    ensures EditPlain(job, meta, plain, origins) == Ok(CommitFor(job, meta, b))
  {
  }

  lemma AddEdits(r: DropAndAdd, meta: EnvMeta)
    requires Dotenv.ValidKeys(r.values) && Dotenv.Fits(r.Rest())
    ensures Dotenv.Parsed(Dotenv.Encoded(r.Rest())).Ok?
    ensures EditPlain(r.Adding(), meta, Dotenv.Encoded(r.Rest()), map[])
         == Ok(CommitFor(r.Adding(), meta, Body(AddTo(meta.recipients, TrimEol(r.recipient)), r.Rest(), map[])))
  {
    DotenvLaws.RoundTrip(r.Rest());
  }

  lemma DropAndAddRace(r: DropAndAdd, files: FileMap, meta: EnvMeta, origins: OriginMap) returns (c1: Commit,
                       c2: Commit)
    requires Sound(files) && r.Jobs().Ok() && FindEntry(files, r.app, r.env) == Ok(meta)
    requires LoadOrigins(files, r.app, r.env) == Ok(origins)
    requires ReadPlain(files, r.who, meta) == Ok(Dotenv.Encoded(r.values)) && r.who in meta.recipients
    requires Dotenv.ValidKeys(r.values) && Dotenv.Fits(r.values) && Dotenv.Fits(r.Rest()) && r.key in r.values
    ensures Racing(r.Jobs(), files, meta, Dotenv.Encoded(r.values), origins, map[], c1, c2)
    ensures c2.app == r.app && c2.env == r.env && c2.plain == Dotenv.Encoded(r.Rest()) && c2.origins.None?
  {
    DropEdits(r, meta, origins);
    AddEdits(r, meta);
    c1 := CommitFor(r.Dropping(), meta, Body(meta.recipients, r.Rest(), origins - {r.key}));
    c2 := CommitFor(r.Adding(), meta, Body(AddTo(meta.recipients, TrimEol(r.recipient)), r.Rest(), map[]));
    CommitForFields(r.Dropping(), meta, Body(meta.recipients, r.Rest(), origins - {r.key}));
    CommitForFields(r.Adding(), meta, Body(AddTo(meta.recipients, TrimEol(r.recipient)), r.Rest(), map[]));
  }

  lemma CommitForFields(job: Job, meta: EnvMeta, b: Body)
    requires job.Mutate?
    ensures var c := CommitFor(job, meta, b);
      && c.app == job.app && c.env == job.env && c.plain == Dotenv.Encoded(b.values)
      && c.meta.recipients == b.recipients && (c.origins.Some? <==> !RecipientOnly(job.op))
  {
  }

  lemma DropRun(r: DropAndAdd, s: Sys, meta: EnvMeta, origins: OriginMap)
    requires Start(s) && Sound(s.files) && r.Jobs().Ok() && FindEntry(s.files, r.app, r.env) == Ok(meta)
    requires LoadOrigins(s.files, r.app, r.env) == Ok(origins)
    requires ReadPlain(s.files, r.who, meta) == Ok(Dotenv.Encoded(r.values)) && r.who in meta.recipients
    requires Dotenv.ValidKeys(r.values) && Dotenv.Fits(r.values) && Dotenv.Fits(r.Rest()) && r.key in r.values
    ensures ContainedRun(s, Whole(r.Jobs())) && FirstFailed(Exec(s, Whole(r.Jobs())), r.Jobs())
    ensures var e := EntryAt(Exec(s, Whole(r.Jobs())).files, r.app, r.env);
      e.Some? && e.value.plain == Dotenv.Encoded(r.Rest()) && e.value.origins == origins
  {
    var c1, c2 := DropAndAddRace(r, s.files, meta, origins);
    AbortedIsPublished(r.Jobs(), s, meta, Dotenv.Encoded(r.values), origins, map[], c1, c2);
    CommittedView(s.files, c2, s.nextId + 1, r.app, r.env);
  }

  lemma DropJobsOk(r: DropAndAdd)
    requires ValidName(r.app) && ValidName(r.env) && ValidRecipient(r.recipient)
    ensures r.Jobs().Ok()
  {
  }

  lemma DropStore(r: DropAndAdd, s: Sys)
    requires Start(s) && r.Possible(s.files)
    ensures ContainedRun(s, Whole(r.Jobs())) && FirstFailed(Exec(s, Whole(r.Jobs())), r.Jobs())
    ensures var e := EntryAt(Exec(s, Whole(r.Jobs())).files, r.app, r.env);
      e.Some? && e.value.plain == Dotenv.Encoded(r.Rest()) && e.value.origins == EntryAt(s.files, r.app, r.env).value.origins
  {
    ReadableEntry(s.files, r.app, r.env, r.who);
    DropJobsOk(r);
    DropRun(r, s, FindEntry(s.files, r.app, r.env).value, LoadOrigins(s.files, r.app, r.env).value);
  }

  lemma NotWithin(files: FileMap, app: string, env: string, rest: Dotenv.Values, key: string)
    requires EntryAt(files, app, env).Some? && EntryAt(files, app, env).value.plain == Dotenv.Encoded(rest)
    requires Dotenv.ValidKeys(rest) && Dotenv.Fits(rest) && key !in rest
    requires key in EntryAt(files, app, env).value.origins
    ensures !OriginsWithin(files, app, env)
  {
    var e := EntryAt(files, app, env).value;
    forall values | Prints(e.plain, values)
      ensures !(e.origins.Keys <= values.Keys)
    {
      DotenvLaws.EncodedInjective(rest, values);
      assert key in e.origins.Keys;
    }
  }

  /** In such runs an origins file can come to name a key that its bundle does not hold: the
      recipient operation re-encrypts the aborted text, the origins file is rolled back. In quiet
      runs this never happens. */
  lemma {:induction false} OriginOutlivesKey(r: DropAndAdd, s: Sys)
    requires Start(s) && Quiescent(s.files) && r.Possible(s.files)
    ensures ContainedRun(s, Whole(r.Jobs())) && FirstFailed(Exec(s, Whole(r.Jobs())), r.Jobs())
    ensures !QuietRun(s, Whole(r.Jobs()))
    ensures !OriginsWithin(Exec(s, Whole(r.Jobs())).files, r.app, r.env)
  {
    DropStore(r, s);
    NotWithin(Exec(s, Whole(r.Jobs())).files, r.app, r.env, r.Rest(), r.key);
    if QuietRun(s, Whole(r.Jobs())) {
      QuietRunsStayQuiescent(s, Whole(r.Jobs()));
    }
  }
}
