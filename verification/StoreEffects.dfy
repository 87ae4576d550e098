/** What each operation does, told only by what a caller can observe: the manifest entry, what every
    reader gets, the origins file and the error. */
module StoreEffects {
  import opened Strings
  import opened Sorting
  import opened Validate
  import opened Files
  import opened Edits
  import opened Transactions
  import opened StoreLaws
  import opened StoreOutcomes
  import D = Dotenv
  import DotenvLaws

  // ---- what is observed ---------------------------------------------------------------------------

  /** The caller of `job` can read the namespace: entry `was`, `values`, and the origins `labels`. */
  ghost predicate Has(files: FileMap, job: Job, was: EnvMeta, values: D.Values, labels: OriginMap)
    requires job.Mutate?
  {
    && Sound(files)
    && ReadJob(files, Job.Read(job.app, job.env, job.who)) == Ok((values, was))
    && LoadOrigins(files, job.app, job.env) == Ok(labels)
  }

  /** Exactly the recipients `rs` read `values`, unless a line is over the scanner's limit. */
  ghost predicate ReadableBy(files: FileMap, app: string, env: string, meta: EnvMeta, rs: set<string>, values: D.Values)
  {
    forall who :: ReadJob(files, Job.Read(app, env, who))
      == if who !in rs then Err(CannotDecrypt) else if D.Fits(values) then Ok((values, meta)) else Err(BadDotenv)
  }

  /** The namespace as it is now: recipients, values and origins, and an entry that says so. */
  ghost predicate Now(files: FileMap, app: string, env: string, meta: EnvMeta, rs: set<string>, values: D.Values,
                      labels: OriginMap)
  {
    && FindEntry(files, app, env) == Ok(meta) && meta.file == BundlePath(app, env)
    && Elements(meta.recipients) == rs && ReadableBy(files, app, env, meta, rs, values)
    && LoadOrigins(files, app, env) == Ok(labels)
  }

  /** The failing write that ends an operation, if any. */
  function FirstFault(f: Faults, hasOrigins: bool): Option<Error> {
    if f.bundle then Some(BundleFailed)
    else if hasOrigins && f.origins then Some(OriginsFailed)
    else if f.manifest then Some(ManifestFailed)
    else None
  }

  /** Only a failing write stops the operation, and then the namespace holds this, one version on. */
  ghost predicate Yields(d: Disk, job: Job, f: Faults, was: EnvMeta, rs: set<string>, values: D.Values,
                         labels: OriginMap)
    requires job.Mutate?
  {
    var r := RunJob(d, job, f);
    && r.error == FirstFault(f, !RecipientOnly(job.op))
    && (r.error.None? ==>
          && FindEntry(r.disk.files, job.app, job.env).Ok?
          && var meta := FindEntry(r.disk.files, job.app, job.env).value;
             && Now(r.disk.files, job.app, job.env, meta, rs, values, labels)
             && meta.version == was.version + 1 && meta.createdAt == was.createdAt && meta.updatedAt == job.at)
  }

  ghost predicate Refuses(d: Disk, job: Job, f: Faults, e: Error)
    requires !job.Read?
  {
    RunJob(d, job, f) == Ended(d, Some(e))
  }

  /** The labels of the keys that are there. */
  ghost function Kept(labels: OriginMap, values: D.Values): OriginMap {
    map k | k in labels && k in values :: labels[k]
  }

  // ---- from the edit to what is observed ----------------------------------------------------------

  function LabelsFor(job: Job, labels: OriginMap): OriginMap
    requires job.Mutate?
  {
    if RecipientOnly(job.op) then map[] else labels
  }

  lemma PreparedIs(files: FileMap, job: Job, was: EnvMeta, values: D.Values, labels: OriginMap)
    requires job.Mutate? && Has(files, job, was, values, labels)
    ensures FindEntry(files, job.app, job.env) == Ok(was) && ValidName(job.app) && ValidName(job.env)
    ensures Prepared(files, job)
         == match Edit(job.op, Body(was.recipients, values, LabelsFor(job, labels)))
            case Err(e) => Err(e)
            case Ok(b) => Ok(CommitFor(job, was, b))
  {
  }

  lemma Stops(d: Disk, job: Job, f: Faults, was: EnvMeta, values: D.Values, labels: OriginMap, e: Error)
    requires job.Mutate? && Has(d.files, job, was, values, labels) && CheckArgs(job.op).None?
    requires Edit(job.op, Body(was.recipients, values, LabelsFor(job, labels))) == Err(e)
    ensures Refuses(d, job, f, e)
  {
    PreparedIs(d.files, job, was, values, labels);
  }

  lemma CommitOutcome(d: Disk, c: Commit, init: bool, f: Faults)
    requires LoadManifest(d.files).Ok? && CommitShape(c) && Admit(LoadManifest(d.files).value, c, init).None?
    ensures CommitRun(d, c, init, f).error == FirstFault(f, c.origins.Some?)
  {
    CommitSucceeds(d, c, init);
    ListValid(c.meta.recipients);
  }

  /** What a commit leaves to be observed. */
  lemma {:induction false} CommittedNow(files: FileMap, c: Commit, id: nat, values: D.Values)
    requires LoadManifest(files).Ok? && CommitShape(c) && D.ValidKeys(values) && c.plain == D.Encoded(values)
    requires c.origins.None? ==> LoadOrigins(files, c.app, c.env).Ok?
    ensures Now(Committed(files, c, CipherFor(c, id)), c.app, c.env, Stamped(c, CipherFor(c, id)),
                Elements(c.meta.recipients), values,
                if c.origins.Some? then c.origins.value else LoadOrigins(files, c.app, c.env).value)
  {
    var cipher := CipherFor(c, id);
    var after := Committed(files, c, cipher);
    CommittedSelf(files, c, cipher);
    DotenvLaws.RoundTrip(values);
    forall who
      ensures ReadJob(after, Job.Read(c.app, c.env, who))
           == if who !in Elements(c.meta.recipients) then Err(CannotDecrypt)
              else if D.Fits(values) then Ok((values, Stamped(c, cipher))) else Err(BadDotenv)
    {
      CommittedReads(files, c, id, who);
    }
  }

  lemma {:induction false} Lands(d: Disk, job: Job, f: Faults, was: EnvMeta, values: D.Values, labels: OriginMap, b: Body)
    requires job.Mutate? && Has(d.files, job, was, values, labels) && CheckArgs(job.op).None?
    requires Edit(job.op, Body(was.recipients, values, LabelsFor(job, labels))) == Ok(b)
    ensures Yields(d, job, f, was, Elements(b.recipients), b.values,
                   if RecipientOnly(job.op) then labels else Kept(b.origins, b.values))
  {
    PreparedIs(d.files, job, was, values, labels);
    PreparedShape(d.files, job);
    var c := CommitFor(job, was, b);
    EditedKeys(d.files, job);
    CommitOutcome(d, c, false, f);
    if FirstFault(f, !RecipientOnly(job.op)).None? {
      SuccessIsCommitted(d, c, false, f);
      CommittedNow(d.files, c, d.nextId, b.values);
    }
  }

  // ---- the value operations -----------------------------------------------------------------------

  /** The key is new, or the operation is refused. */
  lemma CreateEffect(d: Disk, job: Job, f: Faults, was: EnvMeta, had: D.Values, labels: OriginMap)
    requires job.Mutate? && job.op.Create? && Has(d.files, job, was, had, labels)
    ensures var k, v, o := job.op.key, job.op.value, job.op.origin;
      if !D.ValidKey(k) then Refuses(d, job, f, BadKey)
      else if k in had then Refuses(d, job, f, KeyExists)
      else Yields(d, job, f, was, Elements(was.recipients), had[k := v], Kept(labels[k := o], had[k := v]))
  {
    var k, v, o := job.op.key, job.op.value, job.op.origin;
    if !D.ValidKey(k) {
      Stops(d, job, f, was, had, labels, BadKey);
    } else if k in had {
      Stops(d, job, f, was, had, labels, KeyExists);
    } else {
      Lands(d, job, f, was, had, labels, Body(was.recipients, had[k := v], labels[k := o]));
    }
  }

  /** The key is there, or the operation is refused. */
  lemma UpdateEffect(d: Disk, job: Job, f: Faults, was: EnvMeta, had: D.Values, labels: OriginMap)
    requires job.Mutate? && job.op.Update? && Has(d.files, job, was, had, labels)
    ensures var k, v, o := job.op.key, job.op.value, job.op.origin;
      if !D.ValidKey(k) then Refuses(d, job, f, BadKey)
      else if k !in had then Refuses(d, job, f, KeyMissing)
      else Yields(d, job, f, was, Elements(was.recipients), had[k := v], Kept(labels[k := o], had))
  {
    var k, v, o := job.op.key, job.op.value, job.op.origin;
    if !D.ValidKey(k) {
      Stops(d, job, f, was, had, labels, BadKey);
    } else if k !in had {
      Stops(d, job, f, was, had, labels, KeyMissing);
    } else {
      KeptSame(labels[k := o], had[k := v], had);
      Lands(d, job, f, was, had, labels, Body(was.recipients, had[k := v], labels[k := o]));
    }
  }

  lemma SetEffect(d: Disk, job: Job, f: Faults, was: EnvMeta, had: D.Values, labels: OriginMap)
    requires job.Mutate? && job.op.Set? && Has(d.files, job, was, had, labels)
    ensures var k, v, o := job.op.key, job.op.value, job.op.origin;
      if !D.ValidKey(k) then Refuses(d, job, f, BadKey)
      else Yields(d, job, f, was, Elements(was.recipients), had[k := v], Kept(labels[k := o], had[k := v]))
  {
    var k, v, o := job.op.key, job.op.value, job.op.origin;
    if !D.ValidKey(k) {
      Stops(d, job, f, was, had, labels, BadKey);
    } else {
      Lands(d, job, f, was, had, labels, Body(was.recipients, had[k := v], labels[k := o]));
    }
  }

  /** The whole batch or nothing, with one label on each of its keys. */
  lemma SetBatchEffect(d: Disk, job: Job, f: Faults, was: EnvMeta, had: D.Values, labels: OriginMap)
    requires job.Mutate? && job.op.SetBatch? && Has(d.files, job, was, had, labels)
    ensures var batch, o := job.op.batch, job.op.origin;
      if batch == map[] then Refuses(d, job, f, EmptyBatch)
      else if exists k :: k in batch && !D.ValidKey(k) then Refuses(d, job, f, BadKey)
      else
        var stamped := labels + map k | k in batch :: o;
        Yields(d, job, f, was, Elements(was.recipients), had + batch, Kept(stamped, had + batch))
  {
    var batch, o := job.op.batch, job.op.origin;
    if batch != map[] && forall k :: k in batch ==> D.ValidKey(k) {
      Lands(d, job, f, was, had, labels, Body(was.recipients, had + batch, labels + map k | k in batch :: o));
    }
  }

  lemma DeleteEffect(d: Disk, job: Job, f: Faults, was: EnvMeta, had: D.Values, labels: OriginMap)
    requires job.Mutate? && job.op.Delete? && Has(d.files, job, was, had, labels)
    ensures var k := job.op.key;
      if !D.ValidKey(k) then Refuses(d, job, f, BadKey)
      else if k !in had then Refuses(d, job, f, KeyMissing)
      else Yields(d, job, f, was, Elements(was.recipients), had - {k}, Kept(labels, had - {k}))
  {
    var k := job.op.key;
    if !D.ValidKey(k) {
      Stops(d, job, f, was, had, labels, BadKey);
    } else if k !in had {
      Stops(d, job, f, was, had, labels, KeyMissing);
    } else {
      Lands(d, job, f, was, had, labels, Body(was.recipients, had - {k}, labels - {k}));
      assert Kept(labels - {k}, had - {k}) == Kept(labels, had - {k});
    }
  }

  // ---- the recipient operations -------------------------------------------------------------------

  lemma AddRecipientEffect(d: Disk, job: Job, f: Faults, was: EnvMeta, had: D.Values, labels: OriginMap)
    requires job.Mutate? && job.op.AddRecipient? && Has(d.files, job, was, had, labels)
    ensures var r := job.op.recipient;
      if !ValidRecipient(r) then Refuses(d, job, f, BadRecipient)
      else Yields(d, job, f, was, Elements(was.recipients) + {TrimEol(r)}, had, labels)
  {
    var r := job.op.recipient;
    if ValidRecipient(r) {
      EntryOf(d.files, job.app, job.env);
      AddedSet(was.recipients, r);
      AddLands(d, job, f, was, had, labels, AddTo(was.recipients, TrimEol(r)));
    }
  }

  lemma AddLands(d: Disk, job: Job, f: Faults, was: EnvMeta, had: D.Values, labels: OriginMap, rs: seq<string>)
    requires job.Mutate? && job.op.AddRecipient? && Has(d.files, job, was, had, labels)
    requires ValidRecipient(job.op.recipient) && rs == AddTo(was.recipients, TrimEol(job.op.recipient))
    ensures Yields(d, job, f, was, Elements(rs), had, labels)
  {
    Lands(d, job, f, was, had, labels, Body(rs, had, map[]));
  }

  lemma AddedSet(rs: seq<string>, r: string)
    requires ListInvariant(rs) && ValidRecipient(r)
    ensures Elements(AddTo(rs, TrimEol(r))) == Elements(rs) + {TrimEol(r)}
  {
    CleanedIsCleaned(r);
    AddKeepsList(rs, TrimEol(r));
  }

  /** No recipient but `r`. */
  predicate OnlyRecipient(rs: set<string>, r: string) {
    forall x :: x in rs ==> x == r
  }

  lemma DropCases(rs: seq<string>, r: string)
    requires ListInvariant(rs)
    ensures DropFrom(rs, r).None? <==> r !in Elements(rs) || OnlyRecipient(Elements(rs), r)
    ensures DropFrom(rs, r).None? ==>
      DropError(rs, r) == if r !in Elements(rs) then RecipientMissing else LastRecipient
    ensures DropFrom(rs, r).Some? ==> Elements(DropFrom(rs, r).value) == Elements(rs) - {r}
  {
    DropIsExact(rs, r);
    assert forall x :: x in Elements(rs) <==> x in rs;
  }

  lemma EditDrops(op: Op, b: Body, r: string)
    requires (op.RemoveRecipient? || op.RemoveAndRotate?) && r == TrimEol(op.recipient)
    ensures DropFrom(b.recipients, r).None? ==> Edit(op, b) == Err(DropError(b.recipients, r))
  {
  }

  /** Both removals are refused alike. */
  lemma DropRefused(d: Disk, job: Job, f: Faults, was: EnvMeta, had: D.Values, labels: OriginMap, r: string,
                    rs: set<string>)
    requires job.Mutate? && (job.op.RemoveRecipient? || job.op.RemoveAndRotate?) && Has(d.files, job, was, had, labels)
    requires ValidRecipient(job.op.recipient) && r == TrimEol(job.op.recipient) && rs == Elements(was.recipients)
    ensures r !in rs ==> Refuses(d, job, f, RecipientMissing)
    ensures r in rs && OnlyRecipient(rs, r) ==> Refuses(d, job, f, LastRecipient)
    ensures r in rs && !OnlyRecipient(rs, r) ==>
      DropFrom(was.recipients, r).Some? && Elements(DropFrom(was.recipients, r).value) == rs - {r}
  {
    ListedIsList(d.files, job, was, had, labels);
    DropCases(was.recipients, r);
    if DropFrom(was.recipients, r).None? {
      DropStops(d, job, f, was, had, labels, r);
    }
  }

  lemma ListedIsList(files: FileMap, job: Job, was: EnvMeta, had: D.Values, labels: OriginMap)
    requires job.Mutate? && Has(files, job, was, had, labels)
    ensures ListInvariant(was.recipients)
  {
    EntryOf(files, job.app, job.env);
  }

  lemma DropStops(d: Disk, job: Job, f: Faults, was: EnvMeta, had: D.Values, labels: OriginMap, r: string)
    requires job.Mutate? && (job.op.RemoveRecipient? || job.op.RemoveAndRotate?) && Has(d.files, job, was, had, labels)
    requires ValidRecipient(job.op.recipient) && r == TrimEol(job.op.recipient) && DropFrom(was.recipients, r).None?
    ensures Refuses(d, job, f, DropError(was.recipients, r))
  {
    EditDrops(job.op, Body(was.recipients, had, LabelsFor(job, labels)), r);
    Stops(d, job, f, was, had, labels, DropError(was.recipients, r));
  }

  lemma RemoveRecipientEffect(d: Disk, job: Job, f: Faults, was: EnvMeta, had: D.Values, labels: OriginMap)
    requires job.Mutate? && job.op.RemoveRecipient? && Has(d.files, job, was, had, labels)
    ensures var r, rs := job.op.recipient, Elements(was.recipients);
      if !ValidRecipient(r) then Refuses(d, job, f, BadRecipient)
      else if TrimEol(r) !in rs then Refuses(d, job, f, RecipientMissing)
      else if OnlyRecipient(rs, TrimEol(r)) then Refuses(d, job, f, LastRecipient)
      else Yields(d, job, f, was, rs - {TrimEol(r)}, had, labels)
  {
    var r, rs := job.op.recipient, Elements(was.recipients);
    if ValidRecipient(r) {
      DropRefused(d, job, f, was, had, labels, TrimEol(r), rs);
      if TrimEol(r) in rs && !OnlyRecipient(rs, TrimEol(r)) {
        RemoveLands(d, job, f, was, had, labels, DropFrom(was.recipients, TrimEol(r)).value, rs - {TrimEol(r)});
      }
    }
  }

  lemma RemoveLands(d: Disk, job: Job, f: Faults, was: EnvMeta, had: D.Values, labels: OriginMap, rs: seq<string>,
                    left: set<string>)
    requires job.Mutate? && job.op.RemoveRecipient? && Has(d.files, job, was, had, labels)
    requires ValidRecipient(job.op.recipient) && DropFrom(was.recipients, TrimEol(job.op.recipient)) == Some(rs)
    requires Elements(rs) == left
    ensures Yields(d, job, f, was, left, had, labels)
  {
    Lands(d, job, f, was, had, labels, Body(rs, had, map[]));
  }

  /** The keys whose values the program made up itself. */
  ghost function Made(had: D.Values, labels: OriginMap): set<string> {
    set k | k in had && k in labels && labels[k] == "provision"
  }

  /** The recipient is gone and, when asked for, every generated value is a new one; or the whole
      operation is refused: an absent recipient, the last one, or a generator that fails. */
  lemma RemoveAndRotateEffect(d: Disk, job: Job, f: Faults, was: EnvMeta, had: D.Values, labels: OriginMap)
    requires job.Mutate? && job.op.RemoveAndRotate? && Has(d.files, job, was, had, labels)
    ensures var r, rs, made, news := job.op.recipient, Elements(was.recipients), Made(had, labels), job.op.generated;
      if !ValidRecipient(r) then Refuses(d, job, f, BadRecipient)
      else if TrimEol(r) !in rs then Refuses(d, job, f, RecipientMissing)
      else if OnlyRecipient(rs, TrimEol(r)) then Refuses(d, job, f, LastRecipient)
      else if !job.op.rotate then Yields(d, job, f, was, rs - {TrimEol(r)}, had, Kept(labels, had))
      else if !(made <= news.Keys) then Refuses(d, job, f, GeneratorFailed)
      else
        var rotated := map k | k in had :: if k in made then news[k] else had[k];
        Yields(d, job, f, was, rs - {TrimEol(r)}, rotated, Kept(labels, had))
  {
    var r, rs := job.op.recipient, Elements(was.recipients);
    if ValidRecipient(r) {
      DropRefused(d, job, f, was, had, labels, TrimEol(r), rs);
      if TrimEol(r) in rs && !OnlyRecipient(rs, TrimEol(r)) {
        RotateDropped(d, job, f, was, had, labels, DropFrom(was.recipients, TrimEol(r)).value);
      }
    }
  }

  lemma RotateDropped(d: Disk, job: Job, f: Faults, was: EnvMeta, had: D.Values, labels: OriginMap, rs: seq<string>)
    requires job.Mutate? && job.op.RemoveAndRotate? && Has(d.files, job, was, had, labels)
    requires ValidRecipient(job.op.recipient) && DropFrom(was.recipients, TrimEol(job.op.recipient)) == Some(rs)
    ensures var made, news := Made(had, labels), job.op.generated;
      if !job.op.rotate then Yields(d, job, f, was, Elements(rs), had, Kept(labels, had))
      else if !(made <= news.Keys) then Refuses(d, job, f, GeneratorFailed)
      else
        var rotated := map k | k in had :: if k in made then news[k] else had[k];
        Yields(d, job, f, was, Elements(rs), rotated, Kept(labels, had))
  {
    RotatedIs(had, labels, job.op.generated);
    if !job.op.rotate {
      Lands(d, job, f, was, had, labels, Body(rs, had, labels));
    } else if !(Made(had, labels) <= job.op.generated.Keys) {
      Stops(d, job, f, was, had, labels, GeneratorFailed);
    } else {
      RotateLands(d, job, f, was, had, labels, rs,
                  map k | k in had :: if k in Made(had, labels) then job.op.generated[k] else had[k]);
    }
  }

  lemma RotateLands(d: Disk, job: Job, f: Faults, was: EnvMeta, had: D.Values, labels: OriginMap, rs: seq<string>,
                    rotated: D.Values)
    requires job.Mutate? && job.op.RemoveAndRotate? && job.op.rotate && Has(d.files, job, was, had, labels)
    requires ValidRecipient(job.op.recipient) && DropFrom(was.recipients, TrimEol(job.op.recipient)) == Some(rs)
    requires Rotated(had, labels, job.op.generated) == Ok(rotated)
    ensures Yields(d, job, f, was, Elements(rs), rotated, Kept(labels, had))
  {
    EditRotates(job.op, Body(was.recipients, had, labels), rs, rotated);
    KeptSame(labels, rotated, had);
    Lands(d, job, f, was, had, labels, Body(rs, rotated, labels));
  }

  lemma EditRotates(op: Op, b: Body, rs: seq<string>, rotated: D.Values)
    requires op.RemoveAndRotate? && op.rotate && DropFrom(b.recipients, TrimEol(op.recipient)) == Some(rs)
    requires Rotated(b.values, b.origins, op.generated) == Ok(rotated)
    ensures Edit(op, b) == Ok(Body(rs, rotated, b.origins)) && rotated.Keys == b.values.Keys
  {
  }

  lemma KeptSame(labels: OriginMap, a: D.Values, b: D.Values)
    requires a.Keys == b.Keys
    ensures Kept(labels, a) == Kept(labels, b)
  {
    assert forall k :: k in a <==> k in a.Keys;
    assert forall k :: k in b <==> k in b.Keys;
  }

  lemma RotatedIs(had: D.Values, labels: OriginMap, generated: D.Values)
    ensures Rotated(had, labels, generated)
         == if !(Made(had, labels) <= generated.Keys) then Err(GeneratorFailed)
            else Ok(map k | k in had :: if k in Made(had, labels) then generated[k] else had[k])
  {
    assert forall k :: k in had ==> (Provisioned(labels, k) <==> k in Made(had, labels));
    if Made(had, labels) <= generated.Keys {
      assert Rotated(had, labels, generated).value
          == map k | k in had :: if k in Made(had, labels) then generated[k] else had[k];
    } else {
      var k :| k in Made(had, labels) && k !in generated;
      assert Provisioned(labels, k);
    }
  }

  // ---- the first version --------------------------------------------------------------------------

  /** The recipients as they are listed, without line ends. */
  ghost function Listed(recipients: seq<string>): set<string> {
    set i | 0 <= i < |recipients| :: TrimEol(recipients[i])
  }

  /** A new namespace is empty, at version 1, and readable by exactly the recipients given. */
  lemma {:induction false} InitEffect(d: Disk, job: Job, f: Faults)
    requires Sound(d.files) && job.Init?
    ensures var r := RunJob(d, job, f);
      if !ValidName(job.app) || !ValidName(job.env) then Refuses(d, job, f, BadName)
      else if job.recipients == [] || exists i :: 0 <= i < |job.recipients| && !ValidRecipient(job.recipients[i]) then
        Refuses(d, job, f, BadRecipient)
      else if FindEntry(d.files, job.app, job.env).Ok? then Refuses(d, job, f, AlreadyExists)
      else
        && r.error == FirstFault(f, false)
        && (r.error.None? ==>
              && FindEntry(r.disk.files, job.app, job.env).Ok?
              && var meta := FindEntry(r.disk.files, job.app, job.env).value;
                 && Now(r.disk.files, job.app, job.env, meta, Listed(job.recipients), map[], map[])
                 && meta.version == 1 && meta.createdAt == job.at && meta.updatedAt == job.at)
        && (r.error.Some? ==> FindEntry(r.disk.files, job.app, job.env) == FindEntry(d.files, job.app, job.env))
  {
    if CheckJob(job).None? {
      var c := InitCommit(job);
      InitShape(job);
      EntryOf(d.files, job.app, job.env);
      if FindEntry(d.files, job.app, job.env).Err? {
        NoOrphanOrigins(d.files, job.app, job.env);
        CommitOutcome(d, c, true, f);
        InitRecipients(job);
        if FirstFault(f, false).None? {
          SuccessIsCommitted(d, c, true, f);
          assert D.Encoded(map[]) == "" by {
            var none: D.Values := map[];
            assert none.Keys == {};
          }
          CommittedNow(d.files, c, d.nextId, map[]);
        } else {
          PathsDistinct(job.app, job.env, job.app, job.env);
        }
      }
    }
  }

  lemma InitRecipients(job: Job)
    requires job.Init? && CheckJob(job).None?
    ensures Elements(InitCommit(job).meta.recipients) == Listed(job.recipients)
  {
    var rs := TrimAll(job.recipients);
    assert forall i :: 0 <= i < |rs| ==> CleanRecipient(job.recipients[i]) == Some(rs[i]) && rs[i] != "";
    assert "" !in Elements(rs);
    assert Elements(SortUnique(rs)) == Elements(rs) - {""};
  }

  // ---- refusals before the edit -------------------------------------------------------------------

  /** An operation whose caller cannot read the namespace ends with the reader's error. */
  lemma UnreadableEffect(d: Disk, job: Job, f: Faults)
    requires job.Mutate? && CheckJob(job).None?
    requires ReadJob(d.files, Job.Read(job.app, job.env, job.who)).Err?
    ensures Refuses(d, job, f, ReadJob(d.files, Job.Read(job.app, job.env, job.who)).error)
  {
  }

  /** A bad name ends every operation before anything is read, unless its arguments do first. */
  lemma BadNameEffect(d: Disk, job: Job, f: Faults)
    requires !job.Read? && (!ValidName(job.app) || !ValidName(job.env))
    ensures Refuses(d, job, f, if job.Mutate? && CheckArgs(job.op).Some? then CheckArgs(job.op).value else BadName)
  {
  }
}
