/** The store object (internal/store/store.go, origins_rewrite.go, crypt.go): its methods update
    the disk file by file and are proved against the functions of `Transactions`. */
module Store {
  import opened Strings
  import opened Validate
  import opened Files
  import opened Edits
  import opened Transactions
  import Dotenv

  class Store {
    var files: FileMap
    var nextId: nat

    ghost function State(): Disk
      reads this
    {
      Disk(files, nextId)
    }

    constructor ()
      ensures State() == Disk(map[], 0)
    {
      files := map[];
      nextId := 0;
    }

    // ---- reading ------------------------------------------------------------------------------

    method Find(app: string, env: string) returns (r: Outcome<EnvMeta>)
      ensures r == if ValidName(app) && ValidName(env) then FindEntry(files, app, env) else Err(BadName)
    {
      if !ValidName(app) || !ValidName(env) {
        return Err(BadName);
      }
      var m := LoadManifest(files);
      if m.Err? {
        return Err(m.error);
      }
      if app !in m.value.apps {
        return Err(NotInitialized);
      }
      var appMeta := m.value.apps[app];
      if env !in appMeta.envs {
        return Err(NotInitialized);
      }
      return Ok(appMeta.envs[env]);
    }

    /** decrypt: hash the file, then read it a second time. */
    method Decrypt(who: string, meta: EnvMeta) returns (r: Outcome<string>)
      ensures r == match HashCheck(files, meta)
        case Some(e) => Err(e)
        case None => ReadPlain(files, who, meta)
    {
      if meta.file !in files {
        return Err(FileMissing);
      }
      var actual := ShaOf(files[meta.file]);
      if meta.sha != NoSha && meta.sha != actual {
        return Err(ShaMismatch);
      }
      return ReadPlain(files, who, meta);
    }

    method ReadEnv(app: string, env: string, who: string) returns (r: Outcome<(Dotenv.Values, EnvMeta)>)
      ensures r == ReadJob(files, Job.Read(app, env, who))
    {
      var meta := Find(app, env);
      if meta.Err? {
        return Err(meta.error);
      }
      var plain := Decrypt(who, meta.value);
      if plain.Err? {
        return Err(plain.error);
      }
      var values := Dotenv.Parse(plain.value);
      if values.Err? {
        return Err(BadDotenv);
      }
      return Ok((values.value, meta.value));
    }

    // ---- writing ------------------------------------------------------------------------------

    /** encryptAndWrite: the new hash is set only after the write. */
    method EncryptAndWrite(c: Commit, fail: bool) returns (r: Outcome<EnvMeta>)
      modifies this
      ensures !ValidRecipients(c.meta.recipients) ==> r == Err(BadRecipient) && State() == old(State())
      ensures ValidRecipients(c.meta.recipients) ==> nextId == old(nextId) + 1
      ensures ValidRecipients(c.meta.recipients) && fail ==> r == Err(BundleFailed) && files == old(files)
      ensures ValidRecipients(c.meta.recipients) && !fail ==>
        && r == Ok(Stamped(c, CipherFor(c, old(nextId))))
        && files == PutBundle(old(files), c, CipherFor(c, old(nextId)))
    {
      var cleaned := CleanRecipients(c.meta.recipients);
      if cleaned.None? {
        return Err(BadRecipient);
      }
      var cipher := Cipher(nextId, c.meta.recipients, c.plain);
      nextId := nextId + 1;
      if fail {
        return Err(BundleFailed);
      }
      files := files[c.meta.file := Bundle(cipher)];
      return Ok(c.meta.(sha := ShaOf(Bundle(cipher))));
    }

    /** rollbackBundle and restoreOriginsBytes: rewrite the prior file, or remove a file that was
        not there before. */
    method Undo(path: string, prior: Option<Content>, fail: bool)
      modifies this`files
      ensures files == if fail then old(files) else Restore(old(files), path, prior)
    {
      if fail {
        return;
      }
      if prior.None? {
        files := files - {path};
        return;
      }
      files := files[path := prior.value];
    }

    /** commitEnvWithOrigins. `m` is the manifest loaded before the edit: it is overwritten by
        the one on disk and never reaches the file. */
    method CommitEnvWithOrigins(m: Manifest, c: Commit, f: Faults) returns (e: Option<Error>)
      requires c.origins.Some?
      modifies this
      ensures Ended(State(), e) == CommitRun(old(State()), c, false, f)
    {
      var disk := LoadManifest(files);
      if disk.Err? {
        return Some(disk.error);
      }
      var cur := EnvFrom(disk.value, c.app, c.env);
      if cur.Some? && cur.value.version != c.loadedVersion {
        return Some(Conflict);
      }
      var priorBundle := Snapshot(files, c.meta.file);
      var priorOrigins := Snapshot(files, OriginsPath(c.app, c.env));
      var meta := EncryptAndWrite(c, f.bundle);
      if meta.Err? {
        return Some(meta.error);
      }
      if f.origins {
        Undo(c.meta.file, priorBundle, f.undoBundle);
        Undo(OriginsPath(c.app, c.env), priorOrigins, f.undoOrigins);
        return Some(OriginsFailed);
      }
      files := files[OriginsPath(c.app, c.env) := Origins(c.origins.value)];
      var merged := m;
      merged := MergeInto(disk.value, c.app, c.env, meta.value);
      if f.manifest {
        Undo(c.meta.file, priorBundle, f.undoBundle);
        Undo(OriginsPath(c.app, c.env), priorOrigins, f.undoOrigins);
        return Some(ManifestFailed);
      }
      files := files[MANIFEST_PATH := Index(merged)];
      return None;
    }

    /** commitEnv: the same without an origins file and without any rollback. */
    method CommitEnv(m: Manifest, c: Commit, f: Faults) returns (e: Option<Error>)
      requires c.origins.None?
      modifies this
      ensures Ended(State(), e) == CommitRun(old(State()), c, false, f)
    {
      var disk := LoadManifest(files);
      if disk.Err? {
        return Some(disk.error);
      }
      var cur := EnvFrom(disk.value, c.app, c.env);
      if cur.Some? && cur.value.version != c.loadedVersion {
        return Some(Conflict);
      }
      var meta := EncryptAndWrite(c, f.bundle);
      if meta.Err? {
        return Some(meta.error);
      }
      var merged := m;
      merged := MergeInto(disk.value, c.app, c.env, meta.value);
      if f.manifest {
        return Some(ManifestFailed);
      }
      files := files[MANIFEST_PATH := Index(merged)];
      return None;
    }

    method Init(app: string, env: string, recipients: seq<string>, at: string, f: Faults)
      returns (e: Option<Error>)
      modifies this
      ensures Ended(State(), e) == RunJob(old(State()), Job.Init(app, env, recipients, at), f)
    {
      if !ValidName(app) || !ValidName(env) {
        return Some(BadName);
      }
      var cleaned := CleanRecipients(recipients);
      if cleaned.None? {
        return Some(BadRecipient);
      }
      assert cleaned.value == TrimAll(recipients);
      var sorted := SortedUnique(cleaned.value);
      var c := Commit(app, env, EnvMeta(BundlePath(app, env), sorted, at, at, 1, NoSha), 0, "", None);
      e := CommitInit(c, f);
    }

    /** The part of Init under the exclusive lock. */
    method CommitInit(c: Commit, f: Faults) returns (e: Option<Error>)
      requires c.origins.None?
      modifies this
      ensures Ended(State(), e) == CommitRun(old(State()), c, true, f)
    {
      var m := LoadManifest(files);
      if m.Err? {
        return Some(m.error);
      }
      var apps := m.value.apps;
      if c.app !in apps {
        apps := apps[c.app := AppManifest(map[])];
      }
      if c.env in apps[c.app].envs {
        return Some(AlreadyExists);
      }
      var meta := EncryptAndWrite(c, f.bundle);
      if meta.Err? {
        return Some(meta.error);
      }
      apps := apps[c.app := AppManifest(apps[c.app].envs[c.env := meta.value])];
      assert Manifest(apps) == MergeInto(m.value, c.app, c.env, meta.value);
      if f.manifest {
        return Some(ManifestFailed);
      }
      files := files[MANIFEST_PATH := Index(Manifest(apps))];
      return None;
    }

    /** The manifest and the entry to edit. */
    method LoadEnvForEdit(app: string, env: string) returns (r: Outcome<(Manifest, EnvMeta)>)
      ensures match FindEntry(files, app, env)
        case Err(e) => r == Err(e)
        case Ok(meta) => LoadManifest(files).Ok? && r == Ok((LoadManifest(files).value, meta))
    {
      var m := LoadManifest(files);
      if m.Err? {
        return Err(m.error);
      }
      if app !in m.value.apps {
        return Err(NotInitialized);
      }
      var appMeta := m.value.apps[app];
      if env !in appMeta.envs {
        return Err(NotInitialized);
      }
      return Ok((m.value, appMeta.envs[env]));
    }

    /** The first half of rewriteEnv and rewriteEnvWithOrigins: decrypt, parse, edit. */
    method Prepare(job: Job, meta: EnvMeta) returns (r: Outcome<Commit>, report: RotateOutcome)
      requires job.Mutate? && CheckJob(job).None? && FindEntry(files, job.app, job.env) == Ok(meta)
      ensures r == Prepared(files, job)
      ensures r.Ok? && job.op.RemoveAndRotate? && job.op.rotate ==>
        && ReadBundle(files, job.app, job.env, job.who).Ok? && EditOrigins(files, job).Ok?
        && Reports(report, Dotenv.Parsed(ReadBundle(files, job.app, job.env, job.who).value.1).value,
                   EditOrigins(files, job).value, job.op.randomsOnly)
    {
      report := RotateOutcome([], []);
      var plain := Decrypt(job.who, meta);
      if plain.Err? {
        return Err(plain.error), report;
      }
      var values := Dotenv.Parse(plain.value);
      if values.Err? {
        return Err(BadDotenv), report;
      }
      var origins: Outcome<OriginMap> := Ok(map[]);
      if !RecipientOnly(job.op) {
        origins := LoadOrigins(files, job.app, job.env);
      }
      if origins.Err? {
        return Err(origins.error), report;
      }
      r, report := EditLoaded(job, meta, plain.value, values.value, origins.value);
    }

    /** rewriteEnv and rewriteEnvWithOrigins with the closure of one operation. */
    method Rewrite(app: string, env: string, who: string, op: Op, at: string, f: Faults)
      returns (e: Option<Error>, report: RotateOutcome)
      modifies this
      ensures Ended(State(), e) == RunJob(old(State()), Mutate(app, env, who, op, at), f)
      ensures e.None? && op.RemoveAndRotate? && op.rotate ==>
        && ReadBundle(old(files), app, env, who).Ok? && LoadOrigins(old(files), app, env).Ok?
        && Reports(report, Dotenv.Parsed(ReadBundle(old(files), app, env, who).value.1).value,
                   LoadOrigins(old(files), app, env).value, op.randomsOnly)
    {
      report := RotateOutcome([], []);
      e := CheckArgs(op);
      if e.Some? {
        return;
      }
      if !ValidName(app) || !ValidName(env) {
        e := Some(BadName);
        return;
      }
      var loaded := LoadEnvForEdit(app, env);
      if loaded.Err? {
        e := Some(loaded.error);
        return;
      }
      var c: Outcome<Commit>;
      c, report := Prepare(Mutate(app, env, who, op, at), loaded.value.1);
      if c.Err? {
        e := Some(c.error);
        return;
      }
      if c.value.origins.Some? {
        e := CommitEnvWithOrigins(loaded.value.0, c.value, f);
      } else {
        e := CommitEnv(loaded.value.0, c.value, f);
      }
    }
  }

  /** Runs the closure on a fresh workspace and builds the commit from what it left there. */
  method EditLoaded(job: Job, meta: EnvMeta, plain: string, values: Dotenv.Values, origins: OriginMap)
    returns (r: Outcome<Commit>, report: RotateOutcome)
    requires job.Mutate? && CheckJob(job).None? && Dotenv.Parsed(plain) == Ok(values)
    ensures r == EditPlain(job, meta, plain, origins)
    ensures r.Ok? && job.op.RemoveAndRotate? && job.op.rotate ==>
      Reports(report, values, origins, job.op.randomsOnly)
  {
    report := RotateOutcome([], []);
    var w := new Workspace(meta.recipients, values, origins);
    var edited := w.Apply(job.op);
    if edited.Err? {
      return Err(edited.error), report;
    }
    report := edited.value;
    var c := BuildCommit(job, meta, Body(w.backing[..w.count], w.values, w.origins));
    return Ok(c), report;
  }

  /** Prints the values, prunes the origins and moves the version. */
  method BuildCommit(job: Job, meta: EnvMeta, b: Body) returns (c: Commit)
    requires job.Mutate?
    ensures c == CommitFor(job, meta, b)
  {
    var text := Dotenv.Encode(b.values);
    var next := meta.(recipients := b.recipients, updatedAt := job.at, version := meta.version + 1);
    var kept := if RecipientOnly(job.op) then None else Some(PruneOrigins(b.origins, b.values));
    return Commit(job.app, job.env, next, meta.version, text, kept);
  }
}
