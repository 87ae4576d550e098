/** What can come between a call's checks and its addition: the runs that show why approval and the
    bootstrap count bind only while nothing else commits to the namespace. */
module GateOvertaken {
  import opened Strings
  import opened Sorting
  import opened Validate
  import opened Files
  import opened Edits
  import opened Transactions
  import opened StoreLaws
  import opened StoreOutcomes
  import opened Protocol
  import opened ProtocolHashes
  import opened ProtocolSolo
  import opened Quorum
  import opened Gate
  import opened QuorumLaws
  import opened GateRuns
  import opened GateAlone
  import Dotenv
  import DotenvLaws

  // ---- an allowed call that lands ------------------------------------------------------------------

  /** The operation `job` would commit `m` if it ran now. */
  ghost predicate WouldCommit(s: Sys, p: Pid, job: Job, m: Commit) {
    && s.lock == FREE && p !in s.procs && LoadManifest(s.files).Ok?
    && job.Mutate? && CheckJob(job).None? && Prepared(s.files, job) == Ok(m)
    && Admit(LoadManifest(s.files).value, m, false).None? && ValidRecipients(m.meta.recipients)
  }

  lemma SoloOnce(s: Sys, p: Pid, job: Job, m: Commit)
    requires WouldCommit(s, p, job, m)
    ensures SoloDone(Exec(s, Solo([], p, job)), s, p, job, m)
  {
    SoloCommits(s, [], p, job, m);
  }

  lemma {:induction false} LandsAlone(h: Digests, s: GSys, c: Cid, p: Pid, m: Commit)
    requires c in s.calls && s.calls[c].pc.Allowed? && s.calls[c].request.Adding?
    requires WouldCommit(s.sys, p, AddingJob(s.calls[c].request, s.calls[c].pc.cleaned), m)
    ensures var r, pc := s.calls[c].request, s.calls[c].pc;
      var x := GExec(h, s, Landing(c, p));
      && SoloDone(x.sys, s.sys, p, AddingJob(r, pc.cleaned), m)
      && x.calls == s.calls[c := Call(r, Applying(p, pc.cleaned, pc.t))]
  {
    var r, pc, go := s.calls[c].request, s.calls[c].pc, Go(c, false, false, p, {});
    var job := AddingJob(r, pc.cleaned);
    Starts(h, s, c, p);
    GExecJoin(h, s, [go], Lift(Steps(p)));
    LiftExec(h, GExec(h, s, [go]), Steps(p));
    SoloIs(s.sys, p, job);
    SoloOnce(s.sys, p, job, m);
  }

  // ---- what an addition does to the files it finds ------------------------------------------------

  lemma AddEdits(job: Job, meta: EnvMeta, plain: string, cleaned: string)
    requires job.Mutate? && job.op == AddRecipient(cleaned) && TrimEol(cleaned) == cleaned
    requires Dotenv.Parsed(plain).Ok?
    ensures EditPlain(job, meta, plain, map[]).Ok?
    ensures EditPlain(job, meta, plain, map[]).value.meta.recipients == AddTo(meta.recipients, cleaned)
  {
  }

  lemma AddIsPrepared(files: FileMap, job: Job, meta: EnvMeta, plain: string, cleaned: string)
    requires job.Mutate? && job.op == AddRecipient(cleaned) && TrimEol(cleaned) == cleaned && Printed(plain)
    requires ReadBundle(files, job.app, job.env, job.who) == Ok((meta, plain))
    ensures Prepared(files, job).Ok? && FindEntry(files, job.app, job.env) == Ok(meta)
    ensures Prepared(files, job).value.meta.recipients == AddTo(meta.recipients, cleaned)
    ensures Prepared(files, job).value.plain == plain
  {
    AddEdits(job, meta, plain, cleaned);
    RecipientKeepsPlain(job, meta, plain);
    assert Prepared(files, job) == EditPlain(job, meta, plain, map[]);
  }

  /** What holds of the commit that adds a recipient. */
  ghost predicate AddsTo(files: FileMap, r: Request, cleaned: string, m: Commit)
    requires r.Adding? && LoadManifest(files).Ok? && FindEntry(files, r.app, r.env).Ok?
  {
    && CommitShape(m) && m.app == r.app && m.env == r.env && ValidRecipients(m.meta.recipients)
    && Admit(LoadManifest(files).value, m, false).None?
    && m.meta.recipients == AddTo(FindEntry(files, r.app, r.env).value.recipients, cleaned)
    && ReadBundle(files, r.app, r.env, r.who).Ok? && m.plain == ReadBundle(files, r.app, r.env, r.who).value.1
  }

  /** With a readable bundle an addition commits: one recipient more, the same text. */
  lemma AddPrepares(files: FileMap, r: Request, cleaned: string)
    requires Sound(files) && r.Adding? && CleanRecipient(r.recipient) == Some(cleaned)
    requires ValidName(r.app) && ValidName(r.env) && ReadBundle(files, r.app, r.env, r.who).Ok?
    ensures CheckJob(AddingJob(r, cleaned)).None? && Prepared(files, AddingJob(r, cleaned)).Ok?
    ensures FindEntry(files, r.app, r.env).Ok?
    ensures AddsTo(files, r, cleaned, Prepared(files, AddingJob(r, cleaned)).value)
  {
    var job := AddingJob(r, cleaned);
    var (meta, plain) := ReadBundle(files, r.app, r.env, r.who).value;
    AddJobOk(r, cleaned);
    EntryOf(files, r.app, r.env);
    AddIsPrepared(files, job, meta, plain, cleaned);
    AddChecks(files, job);
  }

  lemma AddJobOk(r: Request, cleaned: string)
    requires r.Adding? && CleanRecipient(r.recipient) == Some(cleaned) && ValidName(r.app) && ValidName(r.env)
    ensures CheckJob(AddingJob(r, cleaned)).None? && TrimEol(cleaned) == cleaned
  {
    CleanedIsCleaned(r.recipient);
    assert CheckArgs(AddRecipient(cleaned)).None?;
  }

  lemma AddChecks(files: FileMap, job: Job)
    requires Sound(files) && job.Mutate? && CheckJob(job).None? && Prepared(files, job).Ok?
    ensures var m := Prepared(files, job).value;
      && CommitShape(m) && m.app == job.app && m.env == job.env && ValidRecipients(m.meta.recipients)
      && Admit(LoadManifest(files).value, m, false).None?
  {
    PreparedShape(files, job);
    Admitted(files, Prepared(files, job).value);
  }

  lemma Admitted(files: FileMap, m: Commit)
    requires LoadManifest(files).Ok? && CommitShape(m)
    requires FindEntry(files, m.app, m.env).Ok? && FindEntry(files, m.app, m.env).value.version == m.loadedVersion
    ensures Admit(LoadManifest(files).value, m, false).None? && ValidRecipients(m.meta.recipients)
  {
    CommitSucceeds(Disk(files, 0), m, false);
  }

  /** The new recipient and all the old ones then read that text. */
  lemma AddedReads(files: FileMap, id: nat, r: Request, cleaned: string, reader: string)
    requires Sound(files) && r.Adding? && CleanRecipient(r.recipient) == Some(cleaned)
    requires ValidName(r.app) && ValidName(r.env) && ReadBundle(files, r.app, r.env, r.who).Ok?
    requires reader == cleaned || reader in FindEntry(files, r.app, r.env).value.recipients
    ensures Prepared(files, AddingJob(r, cleaned)).Ok?
    ensures var m := Prepared(files, AddingJob(r, cleaned)).value;
      var after := Committed(files, m, CipherFor(m, id));
      && ReadBundle(after, r.app, r.env, reader)
           == Ok((Stamped(m, CipherFor(m, id)), ReadBundle(files, r.app, r.env, r.who).value.1))
      && Sound(after) && FindEntry(after, r.app, r.env) == Ok(Stamped(m, CipherFor(m, id)))
  {
    AddPrepares(files, r, cleaned);
    var m := Prepared(files, AddingJob(r, cleaned)).value;
    CommittedReads(files, m, id, reader);
    CommittedSelf(files, m, CipherFor(m, id));
    CommittedSound(files, m, id);
    EntryOf(files, r.app, r.env);
    AddKeepsList(FindEntry(files, r.app, r.env).value.recipients, cleaned);
    assert reader in Elements(m.meta.recipients);
  }

  // ---- an approval overtaken ----------------------------------------------------------------------

  /** An operation of process `a` runs to its end, then the allowed call `c` adds its recipient. */
  function Overtaking(a: Pid, job: Job, c: Cid, b: Pid): seq<GAction> {
    Lift(Solo([], a, job)) + Landing(c, b)
  }

  /** `job` is any operation on the namespace of the request that can commit now and after which the
      caller can still read. */
  ghost predicate CanComeFirst(s: Sys, r: Request, a: Pid, b: Pid, job: Job) {
    && s.lock == FREE && a !in s.procs && b !in s.procs && a != b && Sound(s.files) && FreshIds(Disk(s.files, s.nextId))
    && r.Adding? && job.Mutate? && job.app == r.app && job.env == r.env && CheckJob(job).None?
    && Prepared(s.files, job).Ok?
    && r.who in Edited(s.files, job).recipients && Dotenv.Fits(Edited(s.files, job).values)
  }

  /** What `job` leaves behind for the call. */
  lemma {:induction false} FirstCommits(s: Sys, a: Pid, job: Job, who: string)
    requires s.lock == FREE && a !in s.procs && Sound(s.files) && FreshIds(Disk(s.files, s.nextId))
    requires job.Mutate? && CheckJob(job).None? && Prepared(s.files, job).Ok?
    requires who in Edited(s.files, job).recipients && Dotenv.Fits(Edited(s.files, job).values)
    ensures var x, m, e := Exec(s, Solo([], a, job)), Prepared(s.files, job).value, Edited(s.files, job);
      && SoloDone(x, s, a, job, m) && Sound(x.files)
      && ReadBundle(x.files, job.app, job.env, who) == Ok((Stamped(m, CipherFor(m, s.nextId)), Dotenv.Encoded(e.values)))
      && Dotenv.Parsed(Dotenv.Encoded(e.values)) == Ok(e.values)
      && FindEntry(x.files, job.app, job.env) == Ok(Stamped(m, CipherFor(m, s.nextId)))
      && m.meta.recipients == e.recipients
      && ShaAt(x.files, job.app, job.env) != ShaAt(s.files, job.app, job.env)
  {
    var m, e := Prepared(s.files, job).value, Edited(s.files, job);
    PreparedShape(s.files, job);
    PreparedFor(s.files, job);
    EditedKeys(s.files, job);
    EntryOf(s.files, job.app, job.env);
    CommitSucceeds(Disk(s.files, s.nextId), m, false);
    SoloOnce(s, a, job, m);
    DotenvLaws.RoundTrip(e.values);
    CommittedReads(s.files, m, s.nextId, who);
    CommittedSelf(s.files, m, CipherFor(m, s.nextId));
    CommittedSound(s.files, m, s.nextId);
  }

  lemma {:induction false} SecondAdds(h: Digests, s: GSys, c: Cid, b: Pid, plain: string, reader: string)
    requires s.sys.lock == FREE && b !in s.sys.procs && Sound(s.sys.files)
    requires c in s.calls && s.calls[c].pc.Allowed? && s.calls[c].request.Adding?
    requires CleanRecipient(s.calls[c].request.recipient) == Some(s.calls[c].pc.cleaned)
    requires ValidName(s.calls[c].request.app) && ValidName(s.calls[c].request.env)
    requires var r := s.calls[c].request;
      ReadBundle(s.sys.files, r.app, r.env, r.who).Ok? && ReadBundle(s.sys.files, r.app, r.env, r.who).value.1 == plain
    requires var r := s.calls[c].request;
      reader == s.calls[c].pc.cleaned || reader in FindEntry(s.sys.files, r.app, r.env).value.recipients
    ensures var r, pc, x := s.calls[c].request, s.calls[c].pc, GExec(h, s, Landing(c, b));
      && x.calls == s.calls[c := Call(r, Applying(b, pc.cleaned, pc.t))]
      && x.sys.procs == s.sys.procs[b := Proc(AddingJob(r, pc.cleaned), CommitDone)]
      && x.sys.lock == FREE && Sound(x.sys.files)
      && FindEntry(s.sys.files, r.app, r.env).Ok? && FindEntry(x.sys.files, r.app, r.env).Ok?
      && FindEntry(x.sys.files, r.app, r.env).value.recipients
           == AddTo(FindEntry(s.sys.files, r.app, r.env).value.recipients, pc.cleaned)
      && ReadBundle(x.sys.files, r.app, r.env, reader)
           == Ok((FindEntry(x.sys.files, r.app, r.env).value, plain))
  {
    var r, pc := s.calls[c].request, s.calls[c].pc;
    AddPrepares(s.sys.files, r, pc.cleaned);
    var m := Prepared(s.sys.files, AddingJob(r, pc.cleaned)).value;
    LandsAlone(h, s, c, b, m);
    AddedReads(s.sys.files, s.sys.nextId, r, pc.cleaned, reader);
  }

  lemma ReadsAs(files: FileMap, app: string, env: string, who: string, meta: EnvMeta, plain: string,
                values: Dotenv.Values)
    requires ValidName(app) && ValidName(env) && ReadBundle(files, app, env, who) == Ok((meta, plain))
    requires Dotenv.Parsed(plain) == Ok(values)
    ensures ReadJob(files, Job.Read(app, env, who)) == Ok((values, meta))
  {
  }

  /** Nothing holds the approved bundle in place. From every state in which a call is allowed to
      add, whatever it checked, any operation on the namespace may run to its end first: the entry
      then has another hash, and the addition still succeeds, on top of it, so the new recipient
      reads the values as edited since the approval, which nobody signed for. */
  lemma {:induction false} ApprovalOvertaken(h: Digests, s: GSys, c: Cid, a: Pid, b: Pid, job: Job)
    requires c in s.calls && s.calls[c].pc.Allowed? && CanComeFirst(s.sys, s.calls[c].request, a, b, job)
    requires CleanRecipient(s.calls[c].request.recipient) == Some(s.calls[c].pc.cleaned)
    ensures var r, pc, e := s.calls[c].request, s.calls[c].pc, Edited(s.sys.files, job);
      var x, y := GExec(h, s, Lift(Solo([], a, job))), GExec(h, s, Overtaking(a, job, c, b));
      && ShaAt(x.sys.files, r.app, r.env) != ShaAt(s.sys.files, r.app, r.env) && x.calls == s.calls
      && y.calls == s.calls[c := Call(r, Applying(b, pc.cleaned, pc.t))]
      && b in y.sys.procs && y.sys.procs[b].pc.CommitDone?
      && FindEntry(y.sys.files, r.app, r.env).Ok?
      && FindEntry(y.sys.files, r.app, r.env).value.recipients == AddTo(e.recipients, pc.cleaned)
      && ReadJob(y.sys.files, Job.Read(r.app, r.env, pc.cleaned))
           == Ok((e.values, FindEntry(y.sys.files, r.app, r.env).value))
  {
    var r, e := s.calls[c].request, Edited(s.sys.files, job);
    var x := GExec(h, s, Lift(Solo([], a, job)));
    LiftExec(h, s, Solo([], a, job));
    GExecJoin(h, s, Lift(Solo([], a, job)), Landing(c, b));
    FirstCommits(s.sys, a, job, r.who);
    SecondAdds(h, x, c, b, Dotenv.Encoded(e.values), s.calls[c].pc.cleaned);
    var y := GExec(h, x, Landing(c, b));
    ReadsAs(y.sys.files, r.app, r.env, s.calls[c].pc.cleaned, FindEntry(y.sys.files, r.app, r.env).value,
            Dotenv.Encoded(e.values), e.values);
  }

  /** The call `c` holds an approval for `m`, and the store is as in `s`. */
  predicate Holding(s: GSys, x: GSys, c: Cid, r: Request, cleaned: string, m: Meta) {
    && x.sys == s.sys && c in x.calls && x.calls[c].request == r && x.calls[c].pc.Allowed?
    && x.calls[c].pc.cleaned == cleaned && x.calls[c].pc.t.Approved? && x.calls[c].pc.t.m == m
  }

  ghost predicate Overtaken(files: FileMap, x: GSys, y: GSys, c: Cid, r: Request, cleaned: string, m: Meta, b: Pid,
                            values: Dotenv.Values)
    requires r.Adding?
  {
    && c in x.calls && x.calls[c].pc.Allowed? && x.calls[c].pc.t.Approved? && x.calls[c].pc.t.m == m
    && ShaAt(files, r.app, r.env) == m.sha && ShaAt(x.sys.files, r.app, r.env) != m.sha
    && b in y.sys.procs && y.sys.procs[b].pc.CommitDone? && FindEntry(y.sys.files, r.app, r.env).Ok?
    && ReadJob(y.sys.files, Job.Read(r.app, r.env, cleaned))
         == Ok((values, FindEntry(y.sys.files, r.app, r.env).value))
  }

  lemma {:induction false} HoldingOvertaken(h: Digests, s: GSys, g: GSys, c: Cid, r: Request, cleaned: string, m: Meta,
                                            a: Pid, b: Pid, job: Job)
    requires Holding(s, g, c, r, cleaned, m) && CanComeFirst(s.sys, r, a, b, job)
    requires CleanRecipient(r.recipient) == Some(cleaned) && ShaAt(s.sys.files, r.app, r.env) == m.sha
    ensures Overtaken(s.sys.files, GExec(h, g, Lift(Solo([], a, job))), GExec(h, g, Overtaking(a, job, c, b)), c, r,
                      cleaned, m, b, Edited(s.sys.files, job).values)
  {
    ApprovalOvertaken(h, g, c, a, b, job);
  }

  /** The whole run, from a store whose pending addition has its M signatures: the call verifies
      them against the hash of the entry, `job` replaces that bundle by another one, and the new
      recipient gets the other one. */
  lemma {:induction false} SignedThenOvertaken(h: Digests, s: GSys, c: Cid, r: Request, p: Policy, cleaned: string,
                                               found: EnvMeta, m: Meta, a: Pid, b: Pid, job: Job, g: GSys)
    requires c !in s.calls && CanVerify(s, r, p, cleaned, found, m) && CanComeFirst(s.sys, r, a, b, job)
    requires DistinctThumbs(h, m.operators) && |Signers(h, s.dir, r.who, m)| >= p.m
    requires g == GExec(h, s, Alone(c, r, 6 + |Sorted(s.dir.Keys)|))
    ensures Overtaken(s.sys.files, GExec(h, g, Lift(Solo([], a, job))), GExec(h, g, Overtaking(a, job, c, b)), c, r,
                      cleaned, m, b, Edited(s.sys.files, job).values)
  {
    SignedIsHolding(h, s, c, r, p, cleaned, found, m);
    FoundSha(s, r, p, cleaned, found, m);
    HoldingOvertaken(h, s, g, c, r, cleaned, m, a, b, job);
  }

  lemma {:induction false} SignedIsHolding(h: Digests, s: GSys, c: Cid, r: Request, p: Policy, cleaned: string,
                                           found: EnvMeta, m: Meta)
    requires c !in s.calls && CanVerify(s, r, p, cleaned, found, m) && s.sys.lock.exclusive.None?
    requires DistinctThumbs(h, m.operators) && |Signers(h, s.dir, r.who, m)| >= p.m
    ensures Holding(s, GExec(h, s, Alone(c, r, 6 + |Sorted(s.dir.Keys)|)), c, r, cleaned, m)
  {
    var pc := Decision(h, s, r, p, cleaned, found, m);
    VerifiesAlone(h, s, c, r, p, cleaned, found, m);
    DecisionAllows(h, s, r, p, cleaned, found, m);
    AllowedHere(s, GExec(h, s, Alone(c, r, 6 + |Sorted(s.dir.Keys)|)), c, r, pc);
  }

  lemma DecisionAllows(h: Digests, s: GSys, r: Request, p: Policy, cleaned: string, found: EnvMeta, m: Meta)
    requires r.Adding? && Decision(h, s, r, p, cleaned, found, m).Allowed?
    ensures var pc := Decision(h, s, r, p, cleaned, found, m);
      pc.cleaned == cleaned && pc.t.Approved? && pc.t.m == m
  {
  }

  lemma AllowedHere(s: GSys, x: GSys, c: Cid, r: Request, pc: CallPc)
    requires Here(s, x, c, r, pc)
    ensures x.sys == s.sys && c in x.calls && x.calls[c] == Call(r, pc)
  {
  }

  lemma FoundSha(s: GSys, r: Request, p: Policy, cleaned: string, found: EnvMeta, m: Meta)
    requires CanVerify(s, r, p, cleaned, found, m)
    ensures ShaAt(s.sys.files, r.app, r.env) == m.sha && CleanRecipient(r.recipient) == Some(cleaned)
  {
  }

  // ---- a bootstrap count overtaken ----------------------------------------------------------------

  /** The request is for a bootstrap addition that passes every check up to the count. */
  predicate CanCount(r: Request) {
    && r.Adding? && r.bootstrap && CleanRecipient(r.recipient).Some? && ValidName(r.app) && ValidName(r.env)
    && LoadPolicy(r.f).Ok? && LoadPolicy(r.f).value.Some? && OperatorsClean(LoadPolicy(r.f).value.value.operators)
  }

  ghost predicate BothCounted(s: GSys, x: GSys, c: Cid, r: Request, d: Cid, r': Request, found: EnvMeta)
    requires CanCount(r) && CanCount(r')
  {
    var t := Counted(found, |s.sys.log|);
    && x.sys == s.sys && x.dir == s.dir
    && x.calls == s.calls[c := Call(r, Allowed(CleanRecipient(r.recipient).value, t))]
                         [d := Call(r', Allowed(CleanRecipient(r'.recipient).value, t))]
  }

  lemma {:induction false} BothCount(h: Digests, s: GSys, c: Cid, r: Request, d: Cid, r': Request, found: EnvMeta)
    requires c !in s.calls && d !in s.calls && c != d && s.sys.lock == FREE && CanCount(r) && CanCount(r')
    requires r.app == r'.app && r.env == r'.env && FindEntry(s.sys.files, r.app, r.env) == Ok(found)
    requires |found.recipients| < 2
    ensures BothCounted(s, GExec(h, s, Alone(c, r, 2) + Alone(d, r', 2)), c, r, d, r', found)
  {
    CountsAlone(h, s, c, r, LoadPolicy(r.f).value.value, CleanRecipient(r.recipient).value);
    var x := GExec(h, s, Alone(c, r, 2));
    CountsAlone(h, x, d, r', LoadPolicy(r'.f).value.value, CleanRecipient(r'.recipient).value);
    GExecJoin(h, s, Alone(c, r, 2), Alone(d, r', 2));
  }

  /** Both calls count before either adds. */
  function TwoBootstraps(c: Cid, r: Request, a: Pid, d: Cid, r': Request, b: Pid): seq<GAction> {
    Alone(c, r, 2) + Alone(d, r', 2) + (Landing(c, a) + Landing(d, b))
  }

  ghost predicate Bootable(s: GSys, c: Cid, r: Request, a: Pid, d: Cid, r': Request, b: Pid) {
    && c !in s.calls && d !in s.calls && c != d && a !in s.sys.procs && b !in s.sys.procs && a != b
    && s.sys.lock == FREE && Sound(s.sys.files) && CanCount(r) && CanCount(r') && r.app == r'.app && r.env == r'.env
    && ReadBundle(s.sys.files, r.app, r.env, r.who).Ok?
    && r'.who in FindEntry(s.sys.files, r.app, r.env).value.recipients
    && |FindEntry(s.sys.files, r.app, r.env).value.recipients| < 2
  }

  /** Two allowed calls add one after the other. */
  lemma {:induction false} BothAdd(h: Digests, s: GSys, c: Cid, a: Pid, d: Cid, b: Pid)
    requires c in s.calls && d in s.calls && c != d && a !in s.sys.procs && b !in s.sys.procs && a != b
    requires s.sys.lock == FREE && Sound(s.sys.files) && s.calls[c].pc.Allowed? && s.calls[d].pc.Allowed?
    requires CanCount(s.calls[c].request) && CleanRecipient(s.calls[c].request.recipient).value == s.calls[c].pc.cleaned
    requires CanCount(s.calls[d].request) && CleanRecipient(s.calls[d].request.recipient).value == s.calls[d].pc.cleaned
    requires s.calls[d].request.app == s.calls[c].request.app && s.calls[d].request.env == s.calls[c].request.env
    requires var r := s.calls[c].request;
      && ReadBundle(s.sys.files, r.app, r.env, r.who).Ok?
      && s.calls[d].request.who in FindEntry(s.sys.files, r.app, r.env).value.recipients
    ensures var r, y := s.calls[c].request, GExec(h, s, Landing(c, a) + Landing(d, b));
      var was, now := FindEntry(s.sys.files, r.app, r.env), FindEntry(y.sys.files, r.app, r.env);
      && a in y.sys.procs && y.sys.procs[a].pc.CommitDone? && b in y.sys.procs && y.sys.procs[b].pc.CommitDone?
      && was.Ok? && now.Ok?
      && now.value.recipients == AddTo(AddTo(was.value.recipients, s.calls[c].pc.cleaned), s.calls[d].pc.cleaned)
  {
    var r := s.calls[c].request;
    var plain := ReadBundle(s.sys.files, r.app, r.env, r.who).value.1;
    SecondAdds(h, s, c, a, plain, s.calls[d].request.who);
    var y := GExec(h, s, Landing(c, a));
    SecondAdds(h, y, d, b, plain, s.calls[d].pc.cleaned);
    GExecJoin(h, s, Landing(c, a), Landing(d, b));
  }

  /** Nothing holds the count in place either. With fewer than two recipients, two bootstrap
      additions can both count, both be allowed and both add: both recipients are on the list, which
      is then longer than bootstrap permits if they are new and not the same. */
  lemma {:induction false} BootstrapOvertaken(h: Digests, s: GSys, c: Cid, r: Request, a: Pid, d: Cid, r': Request,
                                              b: Pid)
    requires Bootable(s, c, r, a, d, r', b)
    ensures var y := GExec(h, s, TwoBootstraps(c, r, a, d, r', b));
      var was, now := FindEntry(s.sys.files, r.app, r.env), FindEntry(y.sys.files, r.app, r.env);
      var both := Elements(was.value.recipients) + {CleanRecipient(r.recipient).value, CleanRecipient(r'.recipient).value};
      && a in y.sys.procs && y.sys.procs[a].pc.CommitDone? && b in y.sys.procs && y.sys.procs[b].pc.CommitDone?
      && now.Ok? && Elements(now.value.recipients) == both && |now.value.recipients| >= |both|
  {
    var found := FindEntry(s.sys.files, r.app, r.env).value;
    var counting := Alone(c, r, 2) + Alone(d, r', 2);
    BothCount(h, s, c, r, d, r', found);
    BothAdd(h, GExec(h, s, counting), c, a, d, b);
    GExecJoin(h, s, counting, Landing(c, a) + Landing(d, b));
    BothAdded(s.sys.files, r, r');
    FewNames(AddTo(AddTo(found.recipients, CleanRecipient(r.recipient).value), CleanRecipient(r'.recipient).value));
  }

  lemma BothAdded(files: FileMap, r: Request, r': Request)
    requires Sound(files) && CanCount(r) && CanCount(r') && FindEntry(files, r.app, r.env).Ok?
    ensures var rs := FindEntry(files, r.app, r.env).value.recipients;
      var one, two := CleanRecipient(r.recipient).value, CleanRecipient(r'.recipient).value;
      Elements(AddTo(AddTo(rs, one), two)) == Elements(rs) + {one, two}
  {
    var rs := FindEntry(files, r.app, r.env).value.recipients;
    EntryOf(files, r.app, r.env);
    CleanedIsCleaned(r.recipient);
    CleanedIsCleaned(r'.recipient);
    AddKeepsList(rs, CleanRecipient(r.recipient).value);
    AddKeepsList(AddTo(rs, CleanRecipient(r.recipient).value), CleanRecipient(r'.recipient).value);
  }
}
