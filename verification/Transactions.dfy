/** The transaction of internal/store/store.go and origins_rewrite.go as functions: what an
    operation computes from the files it reads, and what a commit does to the disk, write by
    write, when any of the writes may fail. */
module Transactions {
  import opened Strings
  import opened Validate
  import opened Files
  import opened Edits
  import Dotenv

  datatype Job =
    | Read(app: string, env: string, who: string)
    | Mutate(app: string, env: string, who: string, op: Op, at: string)
    | Init(app: string, env: string, recipients: seq<string>, at: string)

  /** Checks made on the arguments alone, in the source's order. */
  function CheckJob(job: Job): Option<Error> {
    if job.Mutate? && CheckArgs(job.op).Some? then CheckArgs(job.op)
    else if !ValidName(job.app) || !ValidName(job.env) then Some(BadName)
    else if job.Init? && !ValidRecipients(job.recipients) then Some(BadRecipient)
    else None
  }

  /** commitInputs. Without an origins map the commit is the one of the recipient operations,
      which has no rollback. */
  datatype Commit = Commit(
    app: string, env: string, meta: EnvMeta, loadedVersion: nat, plain: string, origins: Option<OriginMap>)

  // ---- reading and editing --------------------------------------------------------------------

  /** The commit of an edited namespace. */
  function CommitFor(job: Job, meta: EnvMeta, b: Body): Commit
    requires job.Mutate?
  {
    Commit(job.app, job.env,
           meta.(recipients := b.recipients, updatedAt := job.at, version := meta.version + 1),
           meta.version, Dotenv.Encoded(b.values),
           if RecipientOnly(job.op) then None else Some(PruneOrigins(b.origins, b.values)))
  }

  function EditPlain(job: Job, meta: EnvMeta, plain: string, origins: OriginMap): Outcome<Commit>
    requires job.Mutate?
  {
    match Dotenv.Parsed(plain)
    case Err(_) => Err(BadDotenv)
    case Ok(values) =>
      match Edit(job.op, Body(meta.recipients, values, origins))
      case Err(e) => Err(e)
      case Ok(b) => Ok(CommitFor(job, meta, b))
  }

  /** The bundle as a reader gets it: find the entry, check the hash, decrypt, parse. */
  function ReadBundle(files: FileMap, app: string, env: string, who: string): Outcome<(EnvMeta, string)> {
    match FindEntry(files, app, env)
    case Err(e) => Err(e)
    case Ok(meta) =>
      match HashCheck(files, meta)
      case Some(e) => Err(e)
      case None =>
        match ReadPlain(files, who, meta)
        case Err(e) => Err(e)
        case Ok(plain) => if Dotenv.Parsed(plain).Ok? then Ok((meta, plain)) else Err(BadDotenv)
  }

  function EditOrigins(files: FileMap, job: Job): Outcome<OriginMap>
    requires job.Mutate?
  {
    if RecipientOnly(job.op) then Ok(map[]) else LoadOrigins(files, job.app, job.env)
  }

  /** Everything a mutator does before its commit, on one state of the files. */
  function Prepared(files: FileMap, job: Job): Outcome<Commit>
    requires job.Mutate?
  {
    match ReadBundle(files, job.app, job.env, job.who)
    case Err(e) => Err(e)
    case Ok((meta, plain)) =>
      match EditOrigins(files, job)
      case Err(e) => Err(e)
      case Ok(origins) => EditPlain(job, meta, plain, origins)
  }

  function TrimAll(rs: seq<string>): seq<string> {
    seq(|rs|, i requires 0 <= i < |rs| => TrimEol(rs[i]))
  }

  /** The first version of a namespace: an empty bundle. */
  function InitCommit(job: Job): Commit
    requires job.Init?
  {
    Commit(job.app, job.env,
           EnvMeta(BundlePath(job.app, job.env), SortUnique(TrimAll(job.recipients)), job.at, job.at, 1, NoSha),
           0, "", None)
  }

  // ---- committing -----------------------------------------------------------------------------

  /** The test under the exclusive lock: a new namespace must be absent, an old one must still
      be at the version that was loaded. */
  function Admit(disk: Manifest, c: Commit, init: bool): Option<Error> {
    match EnvFrom(disk, c.app, c.env)
    case None => None
    case Some(cur) =>
      if init then Some(AlreadyExists)
      else if cur.version != c.loadedVersion then Some(Conflict)
      else None
  }

  /** Which of the writes of one commit fail. */
  datatype Faults = Faults(bundle: bool, origins: bool, manifest: bool, undoBundle: bool, undoOrigins: bool)

  const NO_FAULTS := Faults(false, false, false, false, false)

  datatype Disk = Disk(files: FileMap, nextId: nat)

  datatype Ended = Ended(disk: Disk, error: Option<Error>)

  function CipherFor(c: Commit, id: nat): Cipher {
    Cipher(id, c.meta.recipients, c.plain)
  }

  function Stamped(c: Commit, cipher: Cipher): EnvMeta {
    c.meta.(sha := ShaOf(Bundle(cipher)))
  }

  function PutBundle(files: FileMap, c: Commit, cipher: Cipher): FileMap {
    files[c.meta.file := Bundle(cipher)]
  }

  function PutOrigins(files: FileMap, c: Commit): FileMap {
    match c.origins
    case None => files
    case Some(o) => files[OriginsPath(c.app, c.env) := Origins(o)]
  }

  function PutManifest(files: FileMap, disk: Manifest, c: Commit, cipher: Cipher): FileMap {
    files[MANIFEST_PATH := Index(MergeInto(disk, c.app, c.env, Stamped(c, cipher)))]
  }

  /** The rollback after a failed origins or manifest write; a failed undo is only reported. */
  function Rollback(
    files: FileMap, c: Commit, bundle: Option<Content>, origins: Option<Content>, f: Faults): FileMap
  {
    var a := if f.undoBundle then files else Restore(files, c.meta.file, bundle);
    if f.undoOrigins then a else Restore(a, OriginsPath(c.app, c.env), origins)
  }

  /** The whole critical section, of Init, commitEnv and commitEnvWithOrigins alike. */
  function CommitRun(d: Disk, c: Commit, init: bool, f: Faults): Ended {
    match LoadManifest(d.files)
    case Err(e) => Ended(d, Some(e))
    case Ok(disk) =>
      if Admit(disk, c, init).Some? then Ended(d, Admit(disk, c, init))
      else if !ValidRecipients(c.meta.recipients) then Ended(d, Some(BadRecipient))
      else if f.bundle then Ended(d.(nextId := d.nextId + 1), Some(BundleFailed))
      else
        var cipher := CipherFor(c, d.nextId);
        var bundle, origins := Snapshot(d.files, c.meta.file), Snapshot(d.files, OriginsPath(c.app, c.env));
        var files1 := PutBundle(d.files, c, cipher);
        if c.origins.Some? && f.origins then
          Ended(Disk(Rollback(files1, c, bundle, origins, f), d.nextId + 1), Some(OriginsFailed))
        else
          var files2 := PutOrigins(files1, c);
          if f.manifest then
            Ended(Disk(if c.origins.Some? then Rollback(files2, c, bundle, origins, f) else files2, d.nextId + 1),
                  Some(ManifestFailed))
          else
            Ended(Disk(PutManifest(files2, disk, c, cipher), d.nextId + 1), None)
  }

  /** A whole operation run alone. */
  function RunJob(d: Disk, job: Job, f: Faults): Ended
    requires !job.Read?
  {
    match CheckJob(job)
    case Some(e) => Ended(d, Some(e))
    case None =>
      if job.Init? then CommitRun(d, InitCommit(job), true, f)
      else
        match Prepared(d.files, job)
        case Err(e) => Ended(d, Some(e))
        case Ok(c) => CommitRun(d, c, false, f)
  }

  function ReadJob(files: FileMap, job: Job): Outcome<(Dotenv.Values, EnvMeta)>
    requires job.Read?
  {
    match CheckJob(job)
    case Some(e) => Err(e)
    case None =>
      match ReadBundle(files, job.app, job.env, job.who)
      case Err(e) => Err(e)
      case Ok((meta, plain)) => Ok((Dotenv.Parsed(plain).value, meta))
  }
}
