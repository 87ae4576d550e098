/** What a caller finds after an operation that succeeded, and after a recipient operation that
    failed. */
module StoreOutcomes {
  import opened Strings
  import opened Validate
  import opened Files
  import opened Edits
  import opened Transactions
  import opened StoreLaws
  import D = Dotenv
  import DotenvLaws

  /** The recipients, values and origins that a prepared operation is about to commit. */
  function Edited(files: FileMap, job: Job): Body
    requires job.Mutate? && Prepared(files, job).Ok?
  {
    var (meta, plain) := ReadBundle(files, job.app, job.env, job.who).value;
    Edit(job.op, Body(meta.recipients, D.Parsed(plain).value, EditOrigins(files, job).value)).value
  }

  lemma PreparedFor(files: FileMap, job: Job)
    requires job.Mutate? && Prepared(files, job).Ok?
    ensures FindEntry(files, job.app, job.env).Ok?
    ensures Prepared(files, job).value
         == CommitFor(job, FindEntry(files, job.app, job.env).value, Edited(files, job))
  {
  }

  lemma EditedKeys(files: FileMap, job: Job)
    requires Sound(files) && job.Mutate? && CheckJob(job).None? && Prepared(files, job).Ok?
    ensures D.ValidKeys(Edited(files, job).values)
  {
    EntryOf(files, job.app, job.env);
    var (meta, plain) := ReadBundle(files, job.app, job.env, job.who).value;
    DotenvLaws.ParsedKeysValid(plain);
    EditKeeps(job.op, Body(meta.recipients, D.Parsed(plain).value, EditOrigins(files, job).value));
  }

  // ---- after a success ----------------------------------------------------------------------------

  /** What anybody reads from a namespace right after `c` has been committed. */
  lemma CommittedReads(files: FileMap, c: Commit, id: nat, who: string)
    requires LoadManifest(files).Ok? && CommitShape(c)
    ensures var cipher := CipherFor(c, id);
      ReadBundle(Committed(files, c, cipher), c.app, c.env, who)
        == if who !in c.meta.recipients then Err(CannotDecrypt)
           else if D.Parsed(c.plain).Err? then Err(BadDotenv)
           else Ok((Stamped(c, cipher), c.plain))
  {
    CommittedSelf(files, c, CipherFor(c, id));
  }

  /** After a successful operation a listed recipient reads back exactly the committed values if
      and only if every encoded line is below the scanner's limit, and otherwise gets the
      parser's error; nobody else can decrypt. */
  lemma {:induction false} ReadsBackExactly(d: Disk, job: Job, f: Faults, who: string)
    requires Sound(d.files) && job.Mutate? && RunJob(d, job, f).error.None?
    ensures Prepared(d.files, job).Ok? && FindEntry(RunJob(d, job, f).disk.files, job.app, job.env).Ok?
    ensures var b, after := Edited(d.files, job), RunJob(d, job, f).disk.files;
      ReadJob(after, Job.Read(job.app, job.env, who))
        == if who !in b.recipients then Err(CannotDecrypt)
           else if !D.Fits(b.values) then Err(BadDotenv)
           else Ok((b.values, FindEntry(after, job.app, job.env).value))
  {
    var c, values := Prepared(d.files, job).value, Edited(d.files, job).values;
    PreparedShape(d.files, job);
    PreparedFor(d.files, job);
    EditedKeys(d.files, job);
    SuccessIsCommitted(d, c, false, f);
    CommittedReads(d.files, c, d.nextId, who);
    CommittedSelf(d.files, c, CipherFor(c, d.nextId));
    DotenvLaws.RoundTrip(values);
  }

  lemma SetSucceeds(d: Disk, app: string, env: string, who: string, k: string, v: string, origin: Origin, at: string)
    requires Sound(d.files) && ValidName(app) && ValidName(env) && D.ValidKey(k)
    requires ReadBundle(d.files, app, env, who).Ok?
    ensures var job := Mutate(app, env, who, Set(k, v, origin), at);
      && RunJob(d, job, NO_FAULTS).error.None?
      && Prepared(d.files, job).Ok? && k in Edited(d.files, job).values && Edited(d.files, job).values[k] == v
      && Edited(d.files, job).recipients == FindEntry(d.files, app, env).value.recipients
  {
    var job := Mutate(app, env, who, Set(k, v, origin), at);
    EntryOf(d.files, app, env);
    NoOrphanOrigins(d.files, app, env);
    assert Prepared(d.files, job).Ok?;
    PreparedShape(d.files, job);
    CommitSucceeds(d, Prepared(d.files, job).value, false);
  }

  /** Nothing checks the limit on write. In every sound store, on every readable namespace,
      setting a value that reaches the limit together with its key succeeds, and from then on
      every listed recipient gets the parser's error. */
  lemma {:induction false} OversizeIsStored(d: Disk, app: string, env: string, who: string, k: string, v: string,
                                            origin: Origin, at: string, reader: string)
    requires Sound(d.files) && ValidName(app) && ValidName(env) && D.ValidKey(k)
    requires ReadBundle(d.files, app, env, who).Ok?
    requires |k| + 1 + |v| >= D.MAX_VALUE_BYTES
    ensures var r := RunJob(d, Mutate(app, env, who, Set(k, v, origin), at), NO_FAULTS);
      && r.error.None?
      && (reader in FindEntry(d.files, app, env).value.recipients ==>
            ReadJob(r.disk.files, Job.Read(app, env, reader)) == Err(BadDotenv))
  {
    var job := Mutate(app, env, who, Set(k, v, origin), at);
    SetSucceeds(d, app, env, who, k, v, origin, at);
    ReadsBackExactly(d, job, NO_FAULTS, reader);
    DotenvLaws.QuoteLength(v);
    assert !D.Fits(Edited(d.files, job).values);
  }

  // ---- after a failed recipient operation ----------------------------------------------------------

  const MANIFEST_FAULT := NO_FAULTS.(manifest := true)

  /** The failure happens: to every recipient operation that gets as far as its commit. */
  lemma ManifestFailureOccurs(d: Disk, job: Job)
    requires Sound(d.files) && job.Mutate? && RecipientOnly(job.op) && CheckJob(job).None?
    requires Prepared(d.files, job).Ok?
    ensures RunJob(d, job, MANIFEST_FAULT).error == Some(ManifestFailed)
  {
    PreparedShape(d.files, job);
  }

  lemma OtherFailures(d: Disk, job: Job, f: Faults)
    requires job.Mutate? && RecipientOnly(job.op) && RunJob(d, job, f).error.Some?
    requires RunJob(d, job, f).error != Some(ManifestFailed)
    ensures RunJob(d, job, f).disk.files == d.files
  {
  }

  /** A recipient operation that fails has changed a file if and only if it was the manifest write
      that failed. */
  lemma {:induction false} FailedRecipientExact(d: Disk, job: Job, f: Faults)
    requires Sound(d.files) && FreshIds(d) && job.Mutate? && RecipientOnly(job.op)
    requires RunJob(d, job, f).error.Some?
    ensures RunJob(d, job, f).disk.files == d.files <==> RunJob(d, job, f).error != Some(ManifestFailed)
  {
    if RunJob(d, job, f).error != Some(ManifestFailed) {
      OtherFailures(d, job, f);
    } else {
      var c := Prepared(d.files, job).value;
      PreparedShape(d.files, job);
      EntryOf(d.files, job.app, job.env);
      UnpublishedCommit(d, c, f);
      assert c.meta.file in d.files && d.files[c.meta.file] != Bundle(CipherFor(c, d.nextId));
    }
  }

  /** And then the namespace stays readable exactly when its entry had no hash: for the new list
      of recipients, with the old text. With a hash every read fails on it. */
  lemma {:induction false} AfterFailedManifest(d: Disk, job: Job, f: Faults, who: string)
    requires Sound(d.files) && FreshIds(d) && job.Mutate? && RecipientOnly(job.op)
    requires RunJob(d, job, f).error == Some(ManifestFailed)
    ensures Prepared(d.files, job).Ok?
    ensures var meta := FindEntry(d.files, job.app, job.env).value;
      var plain := ReadBundle(d.files, job.app, job.env, job.who).value.1;
      ReadBundle(RunJob(d, job, f).disk.files, job.app, job.env, who)
        == if meta.sha != NoSha then Err(ShaMismatch)
           else if who in Edited(d.files, job).recipients then Ok((meta, plain))
           else Err(CannotDecrypt)
  {
    var c := Prepared(d.files, job).value;
    var (meta, plain) := ReadBundle(d.files, job.app, job.env, job.who).value;
    PreparedShape(d.files, job);
    PreparedFor(d.files, job);
    EntryOf(d.files, job.app, job.env);
    UnpublishedCommit(d, c, f);
    if meta.sha != NoSha {
      FailedRecipientCommit(d, job, f, who);
    } else {
      PathsDistinct(c.app, c.env, c.app, c.env);
      RecipientKeepsPlain(job, meta, plain);
      assert LoadManifest(PutBundle(d.files, c, CipherFor(c, d.nextId))) == LoadManifest(d.files);
    }
  }
}
