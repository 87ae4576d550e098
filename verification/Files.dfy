/** The store's files and the reads and writes every operation is made of
    (internal/store/manifest.go, crypt.go, origins.go, store.go).

    The disk is a map from path to content. Encryption and hashing are symbolic: a ciphertext
    carries a fresh id, the recipients it is addressed to and its plaintext, and the hash of a
    file is the file's content itself, so equal hashes mean equal files. JSON files are typed
    values. */
module Files {
  import opened Strings
  import opened Validate
  import Dotenv

  type Origin = string

  const ORIGIN_PROVISION: Origin := "provision"
  const ORIGIN_SET: Origin := "set"

  type OriginMap = map<string, Origin>

  datatype Cipher = Cipher(id: nat, to: seq<string>, plain: string)

  datatype Sha = NoSha | ShaOf(content: Content)

  datatype EnvMeta = EnvMeta(
    file: string, recipients: seq<string>, createdAt: string, updatedAt: string, version: nat, sha: Sha)

  datatype AppManifest = AppManifest(envs: map<string, EnvMeta>)

  datatype Manifest = Manifest(apps: map<string, AppManifest>)

  datatype Content = Bundle(cipher: Cipher) | Origins(keys: OriginMap) | Index(manifest: Manifest)

  type FileMap = map<string, Content>

  datatype Error =
    | BadName | BadRecipient | BadKey | EmptyBatch | KeyExists | KeyMissing
    | RecipientMissing | LastRecipient | GeneratorFailed
    | NotInitialized | AlreadyExists | Conflict
    | FileMissing | Undecodable | ShaMismatch | CannotDecrypt | BadDotenv
    | ReadFailed | BundleFailed | OriginsFailed | ManifestFailed

  type Outcome<+T> = Result<T, Error>

  // ---- the manifest ---------------------------------------------------------------------------

  function EnvFrom(m: Manifest, app: string, env: string): Option<EnvMeta> {
    if app in m.apps && env in m.apps[app].envs then Some(m.apps[app].envs[env]) else None
  }

  /** The manifest a commit writes: the one just read from disk with one entry replaced. */
  function MergeInto(disk: Manifest, app: string, env: string, meta: EnvMeta): Manifest {
    var envs := if app in disk.apps then disk.apps[app].envs else map[];
    Manifest(disk.apps[app := AppManifest(envs[env := meta])])
  }

  lemma MergeIntoFrame(disk: Manifest, app: string, env: string, meta: EnvMeta, app': string, env': string)
    ensures EnvFrom(MergeInto(disk, app, env, meta), app', env')
         == if app' == app && env' == env then Some(meta) else EnvFrom(disk, app', env')
  {
  }

  function LoadManifest(files: FileMap): Outcome<Manifest> {
    if MANIFEST_PATH !in files then Ok(Manifest(map[]))
    else if files[MANIFEST_PATH].Index? then Ok(files[MANIFEST_PATH].manifest)
    else Err(Undecodable)
  }

  function FindEntry(files: FileMap, app: string, env: string): Outcome<EnvMeta> {
    match LoadManifest(files)
    case Err(e) => Err(e)
    case Ok(m) =>
      match EnvFrom(m, app, env)
      case Some(meta) => Ok(meta)
      case None => Err(NotInitialized)
  }

  // ---- the bundle -----------------------------------------------------------------------------

  /** The first, hashing read of decrypt; an empty stored hash lets any file pass. */
  function HashCheck(files: FileMap, meta: EnvMeta): Option<Error> {
    if meta.file !in files then Some(FileMissing)
    else if meta.sha != NoSha && meta.sha != ShaOf(files[meta.file]) then Some(ShaMismatch)
    else None
  }

  /** The second, decrypting read: it works exactly for the recipients the file is addressed to. */
  function ReadPlain(files: FileMap, who: string, meta: EnvMeta): Outcome<string> {
    if meta.file !in files then Err(FileMissing)
    else if !files[meta.file].Bundle? || who !in files[meta.file].cipher.to then Err(CannotDecrypt)
    else Ok(files[meta.file].cipher.plain)
  }

  // ---- the origins file -----------------------------------------------------------------------

  function LoadOrigins(files: FileMap, app: string, env: string): Outcome<OriginMap> {
    var path := OriginsPath(app, env);
    if path !in files then Ok(map[])
    else if files[path].Origins? then Ok(files[path].keys)
    else Err(Undecodable)
  }

  function OriginOrDefault(origins: OriginMap, key: string): Origin {
    if key in origins && origins[key] != "" then origins[key] else ORIGIN_SET
  }

  function PruneOrigins(origins: OriginMap, values: Dotenv.Values): (r: OriginMap)
    ensures r.Keys == origins.Keys * values.Keys
    ensures forall k :: k in r ==> r[k] == origins[k]
  {
    map k | k in origins && k in values :: origins[k]
  }

  // ---- snapshots and rollback -----------------------------------------------------------------

  function Snapshot(files: FileMap, path: string): Option<Content> {
    if path in files then Some(files[path]) else None
  }

  function Restore(files: FileMap, path: string, prior: Option<Content>): FileMap {
    match prior
    case None => files - {path}
    case Some(c) => files[path := c]
  }

  lemma RestoreUndoes(files: FileMap, path: string, c: Content)
    ensures Restore(files[path := c], path, Snapshot(files, path)) == files
    ensures Restore(files, path, Snapshot(files, path)) == files
  {
  }
}
