/** Laws of one transaction run alone: what every operation keeps, all-or-nothing, the frame
    across namespaces, and the two ways a namespace can become unusable. */
module StoreLaws {
  import opened Strings
  import opened Sorting
  import opened Validate
  import opened Files
  import opened Edits
  import opened Transactions
  import D = Dotenv
  import DotenvLaws

  // ---- invariants of the files ----------------------------------------------------------------

  /** `plain` is the printed form of `values`. */
  ghost predicate Prints(plain: string, values: D.Values) {
    D.ValidKeys(values) && plain == D.Encoded(values)
  }

  ghost predicate Printed(plain: string) {
    exists values :: Prints(plain, values)
  }

  /** One manifest entry agrees with its bundle: the hash matches when there is one, the bundle
      is addressed to exactly the listed recipients and holds a printed map. */
  ghost predicate EntrySound(files: FileMap, app: string, env: string, meta: EnvMeta) {
    && ValidName(app) && ValidName(env)
    && meta.file == BundlePath(app, env)
    && ListInvariant(meta.recipients)
    && meta.file in files && files[meta.file].Bundle?
    && (meta.sha == NoSha || meta.sha == ShaOf(files[meta.file]))
    && files[meta.file].cipher.to == meta.recipients
    && Printed(files[meta.file].cipher.plain)
    && LoadOrigins(files, app, env).Ok?
  }

  ghost predicate NamespaceSound(files: FileMap, m: Manifest, app: string, env: string) {
    match EnvFrom(m, app, env)
    case Some(meta) => EntrySound(files, app, env, meta)
    case None => ValidName(app) && ValidName(env) ==> OriginsPath(app, env) !in files
  }

  ghost predicate Sound(files: FileMap) {
    LoadManifest(files).Ok? && forall app, env :: NamespaceSound(files, LoadManifest(files).value, app, env)
  }

  ghost predicate OriginsWithin(files: FileMap, app: string, env: string) {
    match EntryAt(files, app, env)
    case None => true
    case Some(e) => exists values :: Prints(e.plain, values) && e.origins.Keys <= values.Keys
  }

  /** Sound, and no origins file names a key that its bundle does not hold. */
  ghost predicate Quiescent(files: FileMap) {
    Sound(files) && forall app, env :: OriginsWithin(files, app, env)
  }

  lemma EmptyStoreQuiescent()
    ensures Quiescent(map[])
  {
  }

  // ---- views ------------------------------------------------------------------------------------

  /** What a namespace holds, without file names, ciphertext ids and hashes. */
  datatype Entry = Entry(
    recipients: seq<string>, createdAt: string, updatedAt: string, version: nat,
    to: seq<string>, plain: string, origins: OriginMap)

  function EntryAt(files: FileMap, app: string, env: string): Option<Entry> {
    match FindEntry(files, app, env)
    case Err(_) => None
    case Ok(meta) =>
      if meta.file in files && files[meta.file].Bundle? && LoadOrigins(files, app, env).Ok? then
        Some(Entry(meta.recipients, meta.createdAt, meta.updatedAt, meta.version,
                   files[meta.file].cipher.to, files[meta.file].cipher.plain,
                   LoadOrigins(files, app, env).value))
      else None
  }

  /** The two stores hold the same namespaces. */
  ghost predicate SameView(a: FileMap, b: FileMap) {
    forall app, env :: EntryAt(a, app, env) == EntryAt(b, app, env)
  }

  lemma EntryOf(files: FileMap, app: string, env: string)
    requires Sound(files)
    ensures EntryAt(files, app, env).Some? <==> FindEntry(files, app, env).Ok?
    ensures FindEntry(files, app, env).Ok? ==> EntrySound(files, app, env, FindEntry(files, app, env).value)
  {
    assert NamespaceSound(files, LoadManifest(files).value, app, env);
  }

  // ---- what a commit does -------------------------------------------------------------------------

  /** The files after a commit whose writes all succeed. */
  function Committed(files: FileMap, c: Commit, cipher: Cipher): FileMap
    requires LoadManifest(files).Ok?
  {
    PutManifest(PutOrigins(PutBundle(files, c, cipher), c), LoadManifest(files).value, c, cipher)
  }

  /** What every commit computed by the store looks like. */
  ghost predicate CommitShape(c: Commit) {
    && ValidName(c.app) && ValidName(c.env)
    && c.meta.file == BundlePath(c.app, c.env)
    && ListInvariant(c.meta.recipients)
    && Printed(c.plain)
  }

  /** The entry a commit creates. */
  function NewEntry(files: FileMap, c: Commit): Entry {
    var origins := match c.origins
      case Some(o) => o
      case None => if LoadOrigins(files, c.app, c.env).Ok? then LoadOrigins(files, c.app, c.env).value else map[];
    Entry(c.meta.recipients, c.meta.createdAt, c.meta.updatedAt, c.meta.version,
          c.meta.recipients, c.plain, origins)
  }

  /** The files of other namespaces, and their manifest entries, are not touched. */
  lemma CommittedFrame(files: FileMap, c: Commit, cipher: Cipher, app: string, env: string)
    requires LoadManifest(files).Ok? && CommitShape(c)
    requires app != c.app || env != c.env
    ensures LoadManifest(Committed(files, c, cipher)).Ok?
    ensures EnvFrom(LoadManifest(Committed(files, c, cipher)).value, app, env)
         == EnvFrom(LoadManifest(files).value, app, env)
    ensures ValidName(app) ==>
      && Snapshot(Committed(files, c, cipher), BundlePath(app, env)) == Snapshot(files, BundlePath(app, env))
      && Snapshot(Committed(files, c, cipher), OriginsPath(app, env)) == Snapshot(files, OriginsPath(app, env))
  {
    MergeIntoFrame(LoadManifest(files).value, c.app, c.env, Stamped(c, cipher), app, env);
    if ValidName(app) {
      PathsDistinct(c.app, c.env, app, env);
      PathsDistinct(app, env, c.app, c.env);
    }
  }

  lemma CommittedSelf(files: FileMap, c: Commit, cipher: Cipher)
    requires LoadManifest(files).Ok? && CommitShape(c)
    ensures LoadManifest(Committed(files, c, cipher)).Ok?
    ensures EnvFrom(LoadManifest(Committed(files, c, cipher)).value, c.app, c.env) == Some(Stamped(c, cipher))
    ensures Snapshot(Committed(files, c, cipher), BundlePath(c.app, c.env)) == Some(Bundle(cipher))
    ensures LoadOrigins(Committed(files, c, cipher), c.app, c.env)
         == if c.origins.Some? then Ok(c.origins.value) else LoadOrigins(files, c.app, c.env)
  {
    MergeIntoFrame(LoadManifest(files).value, c.app, c.env, Stamped(c, cipher), c.app, c.env);
    PathsDistinct(c.app, c.env, c.app, c.env);
  }

  lemma NoOrphanOrigins(files: FileMap, app: string, env: string)
    requires Sound(files) && ValidName(app) && ValidName(env)
    ensures LoadOrigins(files, app, env).Ok?
    ensures FindEntry(files, app, env).Err? ==> LoadOrigins(files, app, env) == Ok(map[])
  {
    assert NamespaceSound(files, LoadManifest(files).value, app, env);
  }

  lemma CommittedNamespaceSound(files: FileMap, c: Commit, id: nat, app: string, env: string)
    requires Sound(files) && CommitShape(c)
    ensures var after := Committed(files, c, CipherFor(c, id));
      LoadManifest(after).Ok? && NamespaceSound(after, LoadManifest(after).value, app, env)
  {
    var cipher := CipherFor(c, id);
    assert NamespaceSound(files, LoadManifest(files).value, app, env);
    if app == c.app && env == c.env {
      CommittedSelf(files, c, cipher);
      NoOrphanOrigins(files, app, env);
    } else {
      CommittedFrame(files, c, cipher, app, env);
    }
  }

  lemma CommittedSound(files: FileMap, c: Commit, id: nat)
    requires Sound(files) && CommitShape(c)
    ensures Sound(Committed(files, c, CipherFor(c, id)))
  {
    CommittedSelf(files, c, CipherFor(c, id));
    forall app, env
      ensures NamespaceSound(Committed(files, c, CipherFor(c, id)),
                             LoadManifest(Committed(files, c, CipherFor(c, id))).value, app, env)
    {
      CommittedNamespaceSound(files, c, id, app, env);
    }
  }

  lemma CommittedView(files: FileMap, c: Commit, id: nat, app: string, env: string)
    requires Sound(files) && CommitShape(c)
    ensures EntryAt(Committed(files, c, CipherFor(c, id)), app, env)
         == if app == c.app && env == c.env then Some(NewEntry(files, c)) else EntryAt(files, app, env)
  {
    var cipher := CipherFor(c, id);
    assert NamespaceSound(files, LoadManifest(files).value, app, env);
    if app == c.app && env == c.env {
      CommittedSelf(files, c, cipher);
      NoOrphanOrigins(files, app, env);
    } else {
      CommittedFrame(files, c, cipher, app, env);
    }
  }

  // ---- what is prepared ---------------------------------------------------------------------------

  /** A successful edit of a sound entry gives a well-shaped commit of the next version. */
  lemma EditPlainShape(job: Job, meta: EnvMeta, plain: string, origins: OriginMap)
    requires job.Mutate? && CheckJob(job).None?
    requires meta.file == BundlePath(job.app, job.env) && ListInvariant(meta.recipients)
    requires EditPlain(job, meta, plain, origins).Ok?
    ensures var c := EditPlain(job, meta, plain, origins).value;
      && CommitShape(c) && c.app == job.app && c.env == job.env
      && c.loadedVersion == meta.version && c.meta.version == meta.version + 1
      && (c.origins.Some? <==> !RecipientOnly(job.op))
  {
    DotenvLaws.ParsedKeysValid(plain);
    var values := D.Parsed(plain).value;
    EditKeeps(job.op, Body(meta.recipients, values, origins));
    var b := Edit(job.op, Body(meta.recipients, values, origins)).value;
    assert Prints(D.Encoded(b.values), b.values);
  }

  lemma EditPlainOrigins(job: Job, meta: EnvMeta, plain: string, origins: OriginMap)
    requires job.Mutate? && CheckJob(job).None? && ListInvariant(meta.recipients)
    requires EditPlain(job, meta, plain, origins).Ok?
    ensures var c := EditPlain(job, meta, plain, origins).value;
      c.origins.Some? ==> exists values :: Prints(c.plain, values) && c.origins.value.Keys <= values.Keys
  {
    DotenvLaws.ParsedKeysValid(plain);
    var values := D.Parsed(plain).value;
    EditKeeps(job.op, Body(meta.recipients, values, origins));
    var b := Edit(job.op, Body(meta.recipients, values, origins)).value;
    assert Prints(D.Encoded(b.values), b.values);
  }

  lemma RecipientEditKeepsBody(op: Op, b: Body)
    requires RecipientOnly(op) && Edit(op, b).Ok?
    ensures Edit(op, b).value.values == b.values && Edit(op, b).value.origins == b.origins
  {
  }

  /** A recipient operation re-encrypts exactly the text it read. */
  lemma RecipientKeepsPlain(job: Job, meta: EnvMeta, plain: string)
    requires job.Mutate? && RecipientOnly(job.op) && Printed(plain)
    requires EditPlain(job, meta, plain, map[]).Ok?
    ensures EditPlain(job, meta, plain, map[]).value.plain == plain
  {
    var values :| Prints(plain, values);
    DotenvLaws.RoundTrip(values);
    RecipientEditKeepsBody(job.op, Body(meta.recipients, D.Parsed(plain).value, map[]));
  }

  lemma PreparedShape(files: FileMap, job: Job)
    requires Sound(files) && job.Mutate? && CheckJob(job).None? && Prepared(files, job).Ok?
    ensures CommitShape(Prepared(files, job).value)
    ensures Prepared(files, job).value.app == job.app && Prepared(files, job).value.env == job.env
    ensures FindEntry(files, job.app, job.env).Ok?
    ensures Prepared(files, job).value.loadedVersion == FindEntry(files, job.app, job.env).value.version
    ensures Prepared(files, job).value.meta.version == Prepared(files, job).value.loadedVersion + 1
    ensures Prepared(files, job).value.origins.Some? <==> !RecipientOnly(job.op)
  {
    EntryOf(files, job.app, job.env);
    var (meta, plain) := ReadBundle(files, job.app, job.env, job.who).value;
    EditPlainShape(job, meta, plain, EditOrigins(files, job).value);
  }

  lemma PreparedOriginsWithin(files: FileMap, job: Job)
    requires Quiescent(files) && job.Mutate? && CheckJob(job).None? && Prepared(files, job).Ok?
    ensures var e := NewEntry(files, Prepared(files, job).value);
      exists values :: Prints(e.plain, values) && e.origins.Keys <= values.Keys
  {
    EntryOf(files, job.app, job.env);
    var (meta, plain) := ReadBundle(files, job.app, job.env, job.who).value;
    assert OriginsWithin(files, job.app, job.env);
    if RecipientOnly(job.op) {
      RecipientKeepsPlain(job, meta, plain);
    } else {
      EditPlainOrigins(job, meta, plain, EditOrigins(files, job).value);
    }
  }

  lemma InitShape(job: Job)
    requires job.Init? && CheckJob(job).None?
    ensures CommitShape(InitCommit(job))
  {
    var rs := TrimAll(job.recipients);
    assert forall i :: 0 <= i < |rs| ==> CleanRecipient(job.recipients[i]) == Some(rs[i]);
    forall r | r in Elements(rs)
      ensures ValidRecipient(r) && r != ""
    {
      var i :| 0 <= i < |rs| && rs[i] == r;
      CleanedIsCleaned(job.recipients[i]);
    }
    assert rs[0] in Elements(rs) - {""};
    ValidByElements(SortUnique(rs), Elements(rs) - {""});
    assert "" !in Elements(SortUnique(rs));
    EmptyText();
  }

  lemma EmptyText()
    ensures Printed("")
  {
    var none: D.Values := map[];
    assert none.Keys == {};
    assert Prints("", none);
  }

  // ---- the main laws ------------------------------------------------------------------------------

  /** The faults under which an operation keeps the files sound: rollback writes succeed, and a
      recipient operation's manifest write does. */
  ghost predicate Repairable(job: Job, f: Faults) {
    !f.undoBundle && !f.undoOrigins && (job.Mutate? && RecipientOnly(job.op) ==> !f.manifest)
  }

  /** If any write of a value operation fails and the rollback writes succeed, every file of the
      store is what it was before, byte for byte; a file that was absent is absent again. */
  lemma AllOrNothing(d: Disk, c: Commit, f: Faults)
    requires c.origins.Some? && !f.undoBundle && !f.undoOrigins
    requires CommitRun(d, c, false, f).error.Some?
    ensures CommitRun(d, c, false, f).disk.files == d.files
  {
  }

  /** Without faults a commit is refused exactly when the entry has moved on. */
  lemma CommitSucceeds(d: Disk, c: Commit, init: bool)
    requires LoadManifest(d.files).Ok? && CommitShape(c)
    ensures var r := CommitRun(d, c, init, NO_FAULTS);
      && (r.error.None? <==> Admit(LoadManifest(d.files).value, c, init).None?)
      && (r.error.None? ==> r.disk.files == Committed(d.files, c, CipherFor(c, d.nextId)))
      && (r.error.Some? ==> r.disk.files == d.files)
  {
  }

  lemma SuccessIsCommitted(d: Disk, c: Commit, init: bool, f: Faults)
    requires CommitRun(d, c, init, f).error.None?
    ensures LoadManifest(d.files).Ok?
    ensures CommitRun(d, c, init, f).disk.files == Committed(d.files, c, CipherFor(c, d.nextId))
  {
  }

  /** A bundle left behind by a failed Init belongs to no entry and harms nothing. */
  lemma OrphanBundle(files: FileMap, c: Commit, cipher: Cipher)
    requires Sound(files) && CommitShape(c) && FindEntry(files, c.app, c.env).Err?
    ensures Sound(PutBundle(files, c, cipher))
    ensures SameView(PutBundle(files, c, cipher), files)
  {
    var after := PutBundle(files, c, cipher);
    PathsDistinct(c.app, c.env, c.app, c.env);
    assert LoadManifest(after) == LoadManifest(files);
    forall app, env
      ensures NamespaceSound(after, LoadManifest(after).value, app, env)
      ensures EntryAt(after, app, env) == EntryAt(files, app, env)
    {
      assert NamespaceSound(files, LoadManifest(files).value, app, env);
      if ValidName(app) {
        PathsDistinct(app, env, c.app, c.env);
        PathsDistinct(c.app, c.env, app, env);
      }
    }
  }

  lemma QuiescentByView(a: FileMap, b: FileMap)
    requires Sound(a) && Quiescent(b) && SameView(a, b)
    ensures Quiescent(a)
  {
    forall app, env
      ensures OriginsWithin(a, app, env)
    {
      assert OriginsWithin(b, app, env);
      assert EntryAt(a, app, env) == EntryAt(b, app, env);
    }
  }

  lemma CommittedQuiescent(files: FileMap, c: Commit, id: nat)
    requires Quiescent(files) && CommitShape(c)
    requires exists values :: Prints(NewEntry(files, c).plain, values) && NewEntry(files, c).origins.Keys <= values.Keys
    ensures Quiescent(Committed(files, c, CipherFor(c, id)))
  {
    CommittedSound(files, c, id);
    forall app, env
      ensures OriginsWithin(Committed(files, c, CipherFor(c, id)), app, env)
    {
      CommittedView(files, c, id, app, env);
      assert OriginsWithin(files, app, env);
    }
  }

  /** Every operation keeps the invariant of the files, whatever writes fail, as long as the
      fault can be repaired. */
  lemma {:induction false} RunJobQuiescent(d: Disk, job: Job, f: Faults)
    requires Quiescent(d.files) && !job.Read? && Repairable(job, f)
    ensures Quiescent(RunJob(d, job, f).disk.files)
  {
    var r := RunJob(d, job, f);
    if CheckJob(job).None? {
      if job.Init? {
        var c := InitCommit(job);
        InitShape(job);
        if r.error.None? {
          SuccessIsCommitted(d, c, true, f);
          NoOrphanOrigins(d.files, c.app, c.env);
          InitOrigins(d.files, job);
          CommittedQuiescent(d.files, c, d.nextId);
        } else if r.disk.files != d.files {
          OrphanBundle(d.files, c, CipherFor(c, d.nextId));
          QuiescentByView(r.disk.files, d.files);
        }
      } else if Prepared(d.files, job).Ok? {
        var c := Prepared(d.files, job).value;
        PreparedShape(d.files, job);
        if r.error.None? {
          SuccessIsCommitted(d, c, false, f);
          PreparedOriginsWithin(d.files, job);
          CommittedQuiescent(d.files, c, d.nextId);
        } else if c.origins.Some? {
          AllOrNothing(d, c, f);
        }
      }
    }
  }

  lemma InitOrigins(files: FileMap, job: Job)
    requires Sound(files) && job.Init? && CheckJob(job).None? && FindEntry(files, job.app, job.env).Err?
    ensures var e := NewEntry(files, InitCommit(job));
      exists values :: Prints(e.plain, values) && e.origins.Keys <= values.Keys
  {
    NoOrphanOrigins(files, job.app, job.env);
    EmptyText();
    var values :| Prints("", values);
    var e := NewEntry(files, InitCommit(job));
    assert e.origins == map[];
    assert Prints(e.plain, values) && e.origins.Keys <= values.Keys;
  }

  /** A commit touches at most three paths, and the manifest only when it succeeds. */
  lemma CommitTouches(d: Disk, c: Commit, init: bool, f: Faults, p: string)
    requires p != c.meta.file && p != OriginsPath(c.app, c.env)
    requires CommitRun(d, c, init, f).error.Some? || p != MANIFEST_PATH
    ensures Snapshot(CommitRun(d, c, init, f).disk.files, p) == Snapshot(d.files, p)
  {
  }

  /** Whatever happens to a commit, and however stale the manifest it was prepared from, every
      other namespace keeps its manifest entry, its bundle and its origins file. */
  lemma CommitFrame(d: Disk, c: Commit, init: bool, f: Faults, app: string, env: string)
    requires CommitShape(c) && ValidName(app) && ValidName(env) && (app != c.app || env != c.env)
    ensures FindEntry(CommitRun(d, c, init, f).disk.files, app, env) == FindEntry(d.files, app, env)
    ensures Snapshot(CommitRun(d, c, init, f).disk.files, BundlePath(app, env))
         == Snapshot(d.files, BundlePath(app, env))
    ensures Snapshot(CommitRun(d, c, init, f).disk.files, OriginsPath(app, env))
         == Snapshot(d.files, OriginsPath(app, env))
  {
    PathsDistinct(c.app, c.env, app, env);
    PathsDistinct(app, env, c.app, c.env);
    PathsDistinct(c.app, c.env, c.app, c.env);
    CommitTouches(d, c, init, f, BundlePath(app, env));
    CommitTouches(d, c, init, f, OriginsPath(app, env));
    if CommitRun(d, c, init, f).error.None? {
      SuccessIsCommitted(d, c, init, f);
      CommittedFrame(d.files, c, CipherFor(c, d.nextId), app, env);
    } else {
      CommitTouches(d, c, init, f, MANIFEST_PATH);
    }
  }

  // ---- unusable namespaces ------------------------------------------------------------------------

  /** Ciphertext ids are never reused. */
  ghost predicate FreshIds(d: Disk) {
    forall p :: p in d.files && d.files[p].Bundle? ==> d.files[p].cipher.id < d.nextId
  }

  /** Every operation keeps them so, whatever fails. */
  lemma RunJobFreshIds(d: Disk, job: Job, f: Faults)
    requires FreshIds(d) && !job.Read?
    ensures FreshIds(RunJob(d, job, f).disk)
  {
    if CheckJob(job).None? {
      if job.Init? {
        CommitFreshIds(d, InitCommit(job), true, f);
      } else if Prepared(d.files, job).Ok? {
        CommitFreshIds(d, Prepared(d.files, job).value, false, f);
      }
    }
  }

  lemma CommitFreshIds(d: Disk, c: Commit, init: bool, f: Faults)
    requires FreshIds(d)
    ensures FreshIds(CommitRun(d, c, init, f).disk)
  {
  }

  /** A recipient operation has no rollback: when its manifest write fails, the manifest still
      names the old hash, and nobody who looks at the namespace afterwards can read it. */
  lemma {:induction false} FailedRecipientCommit(d: Disk, job: Job, f: Faults, who: string)
    requires Sound(d.files) && FreshIds(d) && job.Mutate? && RecipientOnly(job.op)
    requires RunJob(d, job, f).error == Some(ManifestFailed)
    requires FindEntry(d.files, job.app, job.env).Ok?
    requires FindEntry(d.files, job.app, job.env).value.sha != NoSha
    ensures ReadBundle(RunJob(d, job, f).disk.files, job.app, job.env, who) == Err(ShaMismatch)
  {
    var c := Prepared(d.files, job).value;
    PreparedShape(d.files, job);
    EntryOf(d.files, job.app, job.env);
    PathsDistinct(c.app, c.env, c.app, c.env);
    var meta := FindEntry(d.files, job.app, job.env).value;
    assert CommitRun(d, c, false, f).error == Some(ManifestFailed);
    UnpublishedCommit(d, c, f);
    OtherBundle(d.files, meta, c, d.nextId, who);
  }

  /** A failed manifest write of a recipient operation leaves just the new bundle behind. */
  lemma UnpublishedCommit(d: Disk, c: Commit, f: Faults)
    requires c.origins.None? && CommitRun(d, c, false, f).error == Some(ManifestFailed)
    ensures CommitRun(d, c, false, f).disk.files == PutBundle(d.files, c, CipherFor(c, d.nextId))
  {
  }

  lemma OtherBundle(files: FileMap, meta: EnvMeta, c: Commit, id: nat, who: string)
    requires FindEntry(files, c.app, c.env) == Ok(meta) && meta.file == c.meta.file && meta.file in files
    requires c.meta.file != MANIFEST_PATH && meta.sha != NoSha && meta.sha == ShaOf(files[meta.file])
    requires files[meta.file].Bundle? ==> files[meta.file].cipher.id < id
    ensures ReadBundle(PutBundle(files, c, CipherFor(c, id)), c.app, c.env, who) == Err(ShaMismatch)
  {
    var after := PutBundle(files, c, CipherFor(c, id));
    assert LoadManifest(after) == LoadManifest(files);
    assert after[meta.file] != files[meta.file];
  }

  lemma UnreadableStops(files: FileMap, id: nat, job: Job, f: Faults)
    requires job.Mutate? && ReadBundle(files, job.app, job.env, job.who).Err?
    ensures RunJob(Disk(files, id), job, f).error.Some? && RunJob(Disk(files, id), job, f).disk.files == files
  {
  }

  /** Once a bundle holds a map with a line at or over the limit, every read and every operation
      on the namespace fails in the parser and changes nothing. */
  lemma OversizeIsStuck(files: FileMap, values: D.Values, app: string, env: string, who: string)
    requires Sound(files) && FindEntry(files, app, env).Ok?
    requires EntryAt(files, app, env).Some?
    requires Prints(EntryAt(files, app, env).value.plain, values) && !D.Fits(values)
    ensures ReadBundle(files, app, env, who).Err?
    ensures who in EntryAt(files, app, env).value.to ==> ReadBundle(files, app, env, who) == Err(BadDotenv)
    ensures forall id: nat, op, at, f ::
      RunJob(Disk(files, id), Mutate(app, env, who, op, at), f).error.Some?
      && RunJob(Disk(files, id), Mutate(app, env, who, op, at), f).disk.files == files
  {
    EntryOf(files, app, env);
    DotenvLaws.RoundTrip(values);
    forall id: nat, op, at, f
      ensures RunJob(Disk(files, id), Mutate(app, env, who, op, at), f).error.Some?
      ensures RunJob(Disk(files, id), Mutate(app, env, who, op, at), f).disk.files == files
    {
      UnreadableStops(files, id, Mutate(app, env, who, op, at), f);
    }
  }

  // ---- rotation -------------------------------------------------------------------------------------

  function Rotation(app: string, env: string, who: string, r: string, randomsOnly: bool, generated: D.Values,
                    at: string): Job {
    Mutate(app, env, who, RemoveAndRotate(r, true, randomsOnly, generated), at)
  }

  /** The randoms-only flag changes the report and nothing on disk, whatever writes fail. */
  lemma RandomsOnlyIsReportOnly(d: Disk, app: string, env: string, who: string, r: string, generated: D.Values,
                                at: string, f: Faults)
    ensures RunJob(d, Rotation(app, env, who, r, true, generated, at), f)
         == RunJob(d, Rotation(app, env, who, r, false, generated, at), f)
  {
    var a, b := Rotation(app, env, who, r, true, generated, at), Rotation(app, env, who, r, false, generated, at);
    forall meta, plain, origins
      ensures EditPlain(a, meta, plain, origins) == EditPlain(b, meta, plain, origins)
    {
      RotationFlag(a, b, meta, plain, origins);
    }
    assert Prepared(d.files, a) == Prepared(d.files, b);
  }

  lemma RotationFlag(a: Job, b: Job, meta: EnvMeta, plain: string, origins: OriginMap)
    requires a.Mutate? && a.op.RemoveAndRotate? && b == a.(op := a.op.(randomsOnly := !a.op.randomsOnly))
    ensures EditPlain(a, meta, plain, origins) == EditPlain(b, meta, plain, origins)
  {
  }

  /** A generator failure on any provisioned key stops the operation before it writes. */
  lemma {:induction false} GeneratorFailureKeepsDisk(d: Disk, job: Job, f: Faults, k: string)
    requires job.Mutate? && job.op.RemoveAndRotate? && job.op.rotate && CheckJob(job).None?
    requires ReadBundle(d.files, job.app, job.env, job.who).Ok? && LoadOrigins(d.files, job.app, job.env).Ok?
    requires var (meta, plain) := ReadBundle(d.files, job.app, job.env, job.who).value;
      && k in D.Parsed(plain).value && k !in job.op.generated
      && Provisioned(LoadOrigins(d.files, job.app, job.env).value, k)
      && DropFrom(meta.recipients, TrimEol(job.op.recipient)).Some?
    ensures RunJob(d, job, f) == Ended(d, Some(GeneratorFailed))
  {
    var (meta, plain) := ReadBundle(d.files, job.app, job.env, job.who).value;
    var values, origins := D.Parsed(plain).value, LoadOrigins(d.files, job.app, job.env).value;
    assert Rotated(values, origins, job.op.generated) == Err(GeneratorFailed);
    assert Edit(job.op, Body(meta.recipients, values, origins)) == Err(GeneratorFailed);
  }

  // ---- the view decides ---------------------------------------------------------------------------

  lemma ReadBundleByView(a: FileMap, b: FileMap, app: string, env: string, who: string)
    requires Sound(a) && Sound(b) && EntryAt(a, app, env) == EntryAt(b, app, env)
    requires ReadBundle(a, app, env, who).Ok?
    ensures ReadBundle(b, app, env, who).Ok?
    ensures var (ma, pa) := ReadBundle(a, app, env, who).value;
      var (mb, pb) := ReadBundle(b, app, env, who).value;
      pa == pb && mb == ma.(sha := mb.sha)
  {
    EntryOf(a, app, env);
    EntryOf(b, app, env);
  }

  lemma EditPlainBySha(job: Job, meta: EnvMeta, sha: Sha, plain: string, origins: OriginMap)
    requires job.Mutate? && EditPlain(job, meta, plain, origins).Ok?
    ensures EditPlain(job, meta.(sha := sha), plain, origins).Ok?
    ensures var c := EditPlain(job, meta, plain, origins).value;
      EditPlain(job, meta.(sha := sha), plain, origins).value == c.(meta := c.meta.(sha := sha))
  {
  }

  /** Two sound stores that show the same namespace prepare the same commit, up to the hash the
      new bundle replaces. */
  lemma PreparedByView(a: FileMap, b: FileMap, job: Job)
    requires Sound(a) && Sound(b) && job.Mutate?
    requires EntryAt(a, job.app, job.env) == EntryAt(b, job.app, job.env)
    requires Prepared(a, job).Ok?
    ensures Prepared(b, job).Ok?
    ensures var ca, cb := Prepared(a, job).value, Prepared(b, job).value;
      cb == ca.(meta := ca.meta.(sha := cb.meta.sha))
  {
    ReadBundleByView(a, b, job.app, job.env, job.who);
    EntryOf(a, job.app, job.env);
    EntryOf(b, job.app, job.env);
    var (ma, plain) := ReadBundle(a, job.app, job.env, job.who).value;
    var (mb, _) := ReadBundle(b, job.app, job.env, job.who).value;
    assert EditOrigins(a, job) == EditOrigins(b, job);
    EditPlainBySha(job, ma, mb.sha, plain, EditOrigins(a, job).value);
  }
}
