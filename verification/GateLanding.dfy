/** On which bundle an allowed addition lands. The call looks up the manifest entry, verifies or
    counts, and only then starts the recipient operation, which loads the entry again: what lies in
    between decides. */
module GateLanding {
  import opened Strings
  import opened Validate
  import opened Files
  import opened Edits
  import opened Transactions
  import opened StoreLaws
  import opened Protocol
  import opened ProtocolBasic
  import opened ProtocolHashes
  import opened ProtocolSound
  import opened ProtocolSerial
  import opened Quorum
  import opened QuorumRecords
  import opened Gate
  import opened GateRuns
  import opened GateSound

  /** The entry a call has looked up, and the length of the log of commits at that moment. */
  function FoundOf(pc: CallPc): Option<(EnvMeta, nat)> {
    match pc
    case EntryFound(_, _, found, at) => Some((found, at))
    case MetaChecked(_, _, found, at, _) => Some((found, at))
    case Collecting(_, _, found, at, _, _, _, _) => Some((found, at))
    case _ =>
      match TicketOf(pc)
      case Some(Counted(found, at)) => Some((found, at))
      case Some(Approved(_, _, found, at)) => Some((found, at))
      case _ => None
  }

  /** The entry was current when the log had `at` entries, and the manifest has followed it since. */
  ghost predicate FoundOk(files0: FileMap, sys: Sys, r: Request, found: EnvMeta, at: nat) {
    && Follows(sys, r.app, r.env, found) && at <= |sys.log|
    && found.version == Number(files0, r.app, r.env) + CommitCount(sys.log[..at], r.app, r.env)
  }

  /** The recipient operation of a call is the one the call asked for. */
  ghost predicate JobOk(sys: Sys, call: Call) {
    call.pc.Applying? ==>
      && call.request.Adding? && call.pc.pid in sys.procs
      && sys.procs[call.pc.pid].job == AddingJob(call.request, call.pc.cleaned)
  }

  ghost predicate CallFollows(files0: FileMap, sys: Sys, call: Call) {
    && JobOk(sys, call)
    && match FoundOf(call.pc)
       case None => true
       case Some((found, at)) => FoundOk(files0, sys, call.request, found, at)
  }

  ghost predicate CallsFollow(files0: FileMap, s: GSys) {
    forall c :: c in s.calls ==> CallFollows(files0, s.sys, s.calls[c])
  }

  // ---- steps of the store -------------------------------------------------------------------------

  lemma JobsStay(s: Sys, a: Action, p: Pid)
    requires p in s.procs
    ensures p in Apply(s, a).procs && Apply(s, a).procs[p].job == s.procs[p].job
  {
  }

  lemma FoundStays(files0: FileMap, s: Sys, a: Action, r: Request, found: EnvMeta, at: nat)
    requires Basic(s) && FoundOk(files0, s, r, found, at)
    ensures FoundOk(files0, Apply(s, a), r, found, at)
  {
    FollowsStep(s, a, r.app, r.env, found);
    LogGrows(s, a);
    assert Apply(s, a).log[..at] == Apply(s, a).log[..|s.log|][..at];
  }

  lemma CallStays(files0: FileMap, s: Sys, a: Action, call: Call)
    requires Basic(s) && CallFollows(files0, s, call)
    ensures CallFollows(files0, Apply(s, a), call)
  {
    if call.pc.Applying? {
      JobsStay(s, a, call.pc.pid);
    }
    if FoundOf(call.pc).Some? {
      FoundStays(files0, s, a, call.request, FoundOf(call.pc).value.0, FoundOf(call.pc).value.1);
    }
  }

  lemma CallsStay(files0: FileMap, s: GSys, a: Action)
    requires Basic(s.sys) && CallsFollow(files0, s)
    ensures CallsFollow(files0, s.(sys := Apply(s.sys, a)))
  {
    forall c | c in s.calls
      ensures CallFollows(files0, Apply(s.sys, a), s.calls[c])
    {
      CallStays(files0, s.sys, a, s.calls[c]);
    }
  }

  // ---- steps of the calls -------------------------------------------------------------------------

  lemma FoundNow(files0: FileMap, sys: Sys, r: Request, found: EnvMeta)
    requires HashesOk(sys) && Accounted(files0, sys) && Lookup(sys.files, r.app, r.env) == Ok(found)
    ensures FoundOk(files0, sys, r, found, |sys.log|)
  {
    FollowsNow(sys, r.app, r.env, found);
    assert NumberAccounted(files0, sys, r.app, r.env);
    assert sys.log[..|sys.log|] == sys.log;
  }

  predicate KeepsFound(pc: CallPc, after: CallPc) {
    FoundOf(after) == None || FoundOf(after) == FoundOf(pc)
  }

  predicate LookedUp(sys: Sys, r: Request, after: CallPc) {
    && FoundOf(after).Some? && FoundOf(after).value.1 == |sys.log|
    && Lookup(sys.files, r.app, r.env) == Ok(FoundOf(after).value.0)
  }

  /** A step of a call keeps the entry it found, or has just looked it up. */
  lemma FoundStep(h: Digests, s: GSys, c: Cid, fail: bool, torn: bool, pid: Pid, left: set<string>)
    requires c in s.calls
    ensures var pc, after := s.calls[c].pc, GoCall(h, s, c, fail, torn, pid, left).calls[c].pc;
      KeepsFound(pc, after) || LookedUp(s.sys, s.calls[c].request, after)
  {
    var pc := s.calls[c].pc;
    if pc.Counting? {
      assert GoCall(h, s, c, fail, torn, pid, left) == GoCounting(s, c, pc.cleaned, fail);
    } else if pc.SomethingPending? {
      assert GoCall(h, s, c, fail, torn, pid, left) == GoSomething(s, c, pc.p, pc.cleaned, fail);
    } else if pc.EntryFound? || pc.MetaChecked? || pc.Collecting? {
      FoundInVerify(h, s, c, fail, torn, pid, left);
    } else if TicketOf(pc).Some? {
      FoundInTicket(h, s, c, fail, torn, pid, left);
    } else if pc.Begun? {
      assert GoCall(h, s, c, fail, torn, pid, left) == To(s, c, AfterPolicy(s.calls[c].request, fail));
    } else {
      FoundNothing(h, s, c, fail, torn, pid, left);
    }
  }

  lemma FoundInVerify(h: Digests, s: GSys, c: Cid, fail: bool, torn: bool, pid: Pid, left: set<string>)
    requires c in s.calls
    requires s.calls[c].pc.EntryFound? || s.calls[c].pc.MetaChecked? || s.calls[c].pc.Collecting?
    ensures KeepsFound(s.calls[c].pc, GoCall(h, s, c, fail, torn, pid, left).calls[c].pc)
  {
    var pc := s.calls[c].pc;
    if pc.EntryFound? {
      assert GoCall(h, s, c, fail, torn, pid, left) == GoEntryFound(s, c, pc, fail);
    } else if pc.MetaChecked? {
      assert GoCall(h, s, c, fail, torn, pid, left) == GoMetaChecked(s, c, pc, fail);
    } else {
      assert GoCall(h, s, c, fail, torn, pid, left) == GoCollecting(h, s, c, pc, fail);
    }
  }

  lemma FoundInTicket(h: Digests, s: GSys, c: Cid, fail: bool, torn: bool, pid: Pid, left: set<string>)
    requires c in s.calls && TicketOf(s.calls[c].pc).Some?
    ensures KeepsFound(s.calls[c].pc, GoCall(h, s, c, fail, torn, pid, left).calls[c].pc)
  {
    var pc := s.calls[c].pc;
    if pc.Allowed? {
      assert GoCall(h, s, c, fail, torn, pid, left) == GoAllowed(s, c, pc.cleaned, pc.t, fail, pid);
    } else if pc.Applying? {
      assert GoCall(h, s, c, fail, torn, pid, left) == GoApplying(s, c, pc.pid, pc.cleaned, pc.t);
    } else if pc.Clearing? {
      assert GoCall(h, s, c, fail, torn, pid, left) == GoClearing(s, c, pc.cleaned, pc.t, left);
    }
  }

  lemma FoundNothing(h: Digests, s: GSys, c: Cid, fail: bool, torn: bool, pid: Pid, left: set<string>)
    requires c in s.calls && FoundOf(s.calls[c].pc).None? && TicketOf(s.calls[c].pc).None?
    requires !s.calls[c].pc.Begun? && !s.calls[c].pc.Counting? && !s.calls[c].pc.SomethingPending?
    ensures FoundOf(GoCall(h, s, c, fail, torn, pid, left).calls[c].pc) == None
  {
  }

  lemma JobStep(h: Digests, s: GSys, c: Cid, fail: bool, torn: bool, pid: Pid, left: set<string>)
    requires c in s.calls && JobOk(s.sys, s.calls[c])
    ensures JobOk(GoCall(h, s, c, fail, torn, pid, left).sys, GoCall(h, s, c, fail, torn, pid, left).calls[c])
  {
    var pc := s.calls[c].pc;
    if pc.Allowed? {
      assert GoCall(h, s, c, fail, torn, pid, left) == GoAllowed(s, c, pc.cleaned, pc.t, fail, pid);
    } else if pc.Applying? {
      assert GoCall(h, s, c, fail, torn, pid, left) == GoApplying(s, c, pc.pid, pc.cleaned, pc.t);
    } else {
      OnlyAllowedApplies(h, s, c, fail, torn, pid, left);
    }
  }

  lemma OnlyAllowedApplies(h: Digests, s: GSys, c: Cid, fail: bool, torn: bool, pid: Pid, left: set<string>)
    requires c in s.calls && !s.calls[c].pc.Allowed? && !s.calls[c].pc.Applying?
    ensures !GoCall(h, s, c, fail, torn, pid, left).calls[c].pc.Applying?
  {
    if s.calls[c].pc.Begun? {
      assert GoCall(h, s, c, fail, torn, pid, left) == To(s, c, AfterPolicy(s.calls[c].request, fail));
    }
  }

  lemma FollowGo(files0: FileMap, h: Digests, s: GSys, c: Cid, fail: bool, torn: bool, pid: Pid, left: set<string>)
    requires Basic(s.sys) && HashesOk(s.sys) && Accounted(files0, s.sys) && CallsFollow(files0, s) && c in s.calls
    ensures CallsFollow(files0, GoCall(h, s, c, fail, torn, pid, left))
  {
    var t := GoCall(h, s, c, fail, torn, pid, left);
    var r := s.calls[c].request;
    assert CallFollows(files0, s.sys, s.calls[c]);
    FoundStep(h, s, c, fail, torn, pid, left);
    JobStep(h, s, c, fail, torn, pid, left);
    SysOfGo(h, s, c, fail, torn, pid, left);
    forall x | x in t.calls
      ensures CallFollows(files0, t.sys, t.calls[x])
    {
      if x != c {
        assert CallFollows(files0, s.sys, s.calls[x]);
        if t.sys != s.sys {
          CallStays(files0, s.sys, Spawn(pid, AddingJob(r, s.calls[c].pc.cleaned)), s.calls[x]);
        }
      } else if FoundOf(t.calls[c].pc).Some? {
        var (found, at) := FoundOf(t.calls[c].pc).value;
        if FoundOf(t.calls[c].pc) != FoundOf(s.calls[c].pc) {
          FoundNow(files0, s.sys, r, found);
        }
        if t.sys != s.sys {
          FoundStays(files0, s.sys, Spawn(pid, AddingJob(r, s.calls[c].pc.cleaned)), r, found, at);
        }
      }
    }
  }

  lemma SysOfGo(h: Digests, s: GSys, c: Cid, fail: bool, torn: bool, pid: Pid, left: set<string>)
    requires c in s.calls
    ensures var t := GoCall(h, s, c, fail, torn, pid, left);
      t.sys == s.sys
      || (s.calls[c].pc.Allowed? && s.calls[c].request.Adding?
          && t.sys == Apply(s.sys, Spawn(pid, AddingJob(s.calls[c].request, s.calls[c].pc.cleaned))))
  {
    if s.calls[c].pc.Allowed? {
      assert GoCall(h, s, c, fail, torn, pid, left)
          == GoAllowed(s, c, s.calls[c].pc.cleaned, s.calls[c].pc.t, fail, pid);
    }
  }

  lemma FollowStep(files0: FileMap, h: Digests, s: GSys, a: GAction)
    requires Basic(s.sys) && HashesOk(s.sys) && Accounted(files0, s.sys) && CallsFollow(files0, s)
    ensures CallsFollow(files0, GStep(h, s, a))
  {
    match a
    case StoreStep(b) => CallsStay(files0, s, b);
    case Go(c, fail, torn, pid, left) =>
      if c in s.calls {
        FollowGo(files0, h, s, c, fail, torn, pid, left);
      }
    case _ =>
  }

  /** A start from files as the store keeps them, with no ciphertext id used twice. */
  ghost predicate GoodStart(s: GSys) {
    GStart(s) && Sound(s.sys.files) && FreshIds(Disk(s.sys.files, s.sys.nextId))
  }

  lemma RunSys(h: Digests, s: GSys, run: seq<GAction>)
    requires GoodStart(s)
    ensures var x := GExec(h, s, run);
      Basic(x.sys) && HashesOk(x.sys) && Accounted(s.sys.files, x.sys)
  {
    StoreProjection(h, s, run);
    RunBasic(s.sys, StoreRun(h, s, run));
    RunHashed(s.sys, StoreRun(h, s, run));
  }

  lemma {:induction false} RunFollows(h: Digests, s: GSys, run: seq<GAction>)
    requires GoodStart(s)
    ensures CallsFollow(s.sys.files, GExec(h, s, run))
  {
    if run != [] {
      var n := |run| - 1;
      RunFollows(h, s, run[..n]);
      RunSys(h, s, run[..n]);
      FollowStep(s.sys.files, h, GExec(h, s, run[..n]), run[n]);
    }
  }

  // ---- where an addition lands --------------------------------------------------------------------

  /** The recipient operation of call `c` is about to commit. */
  predicate Lands(x: GSys, c: Cid) {
    && c in x.calls && x.calls[c].pc.Applying? && FoundOf(x.calls[c].pc).Some?
    && Commits(x.sys, Step(x.calls[c].pc.pid, false))
  }

  lemma FollowsExactly(files0: FileMap, sys: Sys, r: Request, found: EnvMeta, at: nat)
    requires Accounted(files0, sys) && FoundOk(files0, sys, r, found, at)
    ensures FindEntry(sys.files, r.app, r.env).Ok?
    ensures FindEntry(sys.files, r.app, r.env).value == found <==> NoneSince(sys.log, at, r.app, r.env)
    ensures FindEntry(sys.files, r.app, r.env).value.sha == found.sha <==> NoneSince(sys.log, at, r.app, r.env)
  {
    assert NumberAccounted(files0, sys, r.app, r.env);
    CountSince(sys.log, at, r.app, r.env);
  }

  /** In every run, whatever overlaps and whatever fails: the bundle that a gated addition replaces
      is the one whose hash the operators signed if and only if no commit to the namespace lies
      between the call's look at the manifest and the addition's own commit. */
  lemma {:induction false} LandsOnApproved(h: Digests, s: GSys, run: seq<GAction>, c: Cid)
    requires GoodStart(s) && FreshRun(h, s, run) && Lands(GExec(h, s, run), c)
    requires GExec(h, s, run).calls[c].pc.t.Approved?
    ensures var x := GExec(h, s, run);
      var r, t := x.calls[c].request, x.calls[c].pc.t;
      && QuorumReached(h, x.acts, r, x.calls[c].pc.cleaned, t.m, t.ops, t.found)
      && x.sys.procs[x.calls[c].pc.pid].job == AddingJob(r, x.calls[c].pc.cleaned)
      && FindEntry(x.sys.files, r.app, r.env).Ok? && t.at <= |x.sys.log|
      && (FindEntry(x.sys.files, r.app, r.env).value.sha == t.m.sha <==> NoneSince(x.sys.log, t.at, r.app, r.env))
  {
    var x := GExec(h, s, run);
    RunSys(h, s, run);
    RunFollows(h, s, run);
    QuorumSound(h, s, run, c);
    assert CallFollows(s.sys.files, x.sys, x.calls[c]);
    FollowsExactly(s.sys.files, x.sys, x.calls[c].request, x.calls[c].pc.t.found, x.calls[c].pc.t.at);
  }

  /** The same for a bootstrap addition and its count: the entry it replaces is the one it counted,
      with fewer than two recipients, if and only if nothing was committed in between. */
  lemma {:induction false} LandsOnCounted(h: Digests, s: GSys, run: seq<GAction>, c: Cid)
    requires GoodStart(s) && FreshRun(h, s, run) && Lands(GExec(h, s, run), c)
    requires GExec(h, s, run).calls[c].pc.t.Counted?
    ensures var x := GExec(h, s, run);
      var r, t := x.calls[c].request, x.calls[c].pc.t;
      && FindEntry(x.sys.files, r.app, r.env).Ok? && t.at <= |x.sys.log| && |t.found.recipients| < 2
      && (FindEntry(x.sys.files, r.app, r.env).value == t.found <==> NoneSince(x.sys.log, t.at, r.app, r.env))
  {
    var x := GExec(h, s, run);
    RunSys(h, s, run);
    RunFollows(h, s, run);
    RunRecorded(h, s, run);
    assert CallOk(h, x.acts, x.calls[c]);
    assert CallFollows(s.sys.files, x.sys, x.calls[c]);
    FollowsExactly(s.sys.files, x.sys, x.calls[c].request, x.calls[c].pc.t.found, x.calls[c].pc.t.at);
  }

  // ---- which text it re-encrypts ------------------------------------------------------------------

  lemma PreparedText(files: FileMap, job: Job, c: Commit)
    requires Sound(files) && job.Mutate? && RecipientOnly(job.op) && Prepared(files, job) == Ok(c)
    requires ShaAt(files, job.app, job.env) != NoSha
    ensures ShaAt(files, job.app, job.env).content.Bundle?
    ensures c.plain == ShaAt(files, job.app, job.env).content.cipher.plain
  {
    EntryOf(files, job.app, job.env);
    var (meta, plain) := ReadBundle(files, job.app, job.env, job.who).value;
    RecipientKeepsPlain(job, meta, plain);
  }

  /** In a quiet run a gated addition with nothing committed in between gives the new recipient
      exactly the text of the bundle the operators approved. */
  lemma {:induction false} ApprovedText(h: Digests, s: GSys, run: seq<GAction>, c: Cid)
    requires GoodStart(s) && FreshRun(h, s, run) && Lands(GExec(h, s, run), c)
    requires QuietRun(s.sys, StoreRun(h, s, run)) && GExec(h, s, run).calls[c].pc.t.Approved?
    requires var x := GExec(h, s, run);
      x.calls[c].pc.t.at <= |x.sys.log|
      && NoneSince(x.sys.log, x.calls[c].pc.t.at, x.calls[c].request.app, x.calls[c].request.env)
    ensures var x := GExec(h, s, run);
      var sha := x.calls[c].pc.t.m.sha;
      sha.ShaOf? && sha.content.Bundle?
      && x.sys.procs[x.calls[c].pc.pid].pc.c.plain == sha.content.cipher.plain
  {
    var x := GExec(h, s, run);
    var p := x.calls[c].pc.pid;
    LandsOnApproved(h, s, run, c);
    StoreProjection(h, s, run);
    CommitsWhatIsPrepared(s.sys, StoreRun(h, s, run), p);
    ApprovedShaPresent(h, s, run, c);
    PreparedText(x.sys.committed, x.sys.procs[p].job, x.sys.procs[p].pc.c);
  }

  /** Recorded preparations are for bundles with a hash. */
  lemma ApprovedShaPresent(h: Digests, s: GSys, run: seq<GAction>, c: Cid)
    requires GoodStart(s) && FreshRun(h, s, run) && Lands(GExec(h, s, run), c)
    requires GExec(h, s, run).calls[c].pc.t.Approved?
    ensures GExec(h, s, run).calls[c].pc.t.m.sha != NoSha
  {
    QuorumSound(h, s, run, c);
    RunShasPresent(h, s, run);
  }

  ghost predicate ShasPresent(acts: Acts) {
    forall e :: e in acts.prepared ==> e.request.sha != NoSha
  }

  lemma ShasPresentStep(h: Digests, s: GSys, a: GAction)
    requires ShasPresent(s.acts)
    ensures ShasPresent(GStep(h, s, a).acts)
  {
    if a.Go? && a.c in s.calls {
      var pc := s.calls[a.c].pc;
      if pc.NothingPending? {
        assert GStep(h, s, a) == GoNothing(s, a.c, pc.p, pc.cleaned, a.fail);
      } else {
        OthersPrepareNothing(h, s, a);
      }
    }
  }

  lemma OthersPrepareNothing(h: Digests, s: GSys, a: GAction)
    requires a.Go? && a.c in s.calls && !s.calls[a.c].pc.NothingPending?
    ensures GStep(h, s, a).acts.prepared == s.acts.prepared
  {
  }

  lemma {:induction false} RunShasPresent(h: Digests, s: GSys, run: seq<GAction>)
    requires GStart(s)
    ensures ShasPresent(GExec(h, s, run).acts)
  {
    if run != [] {
      RunShasPresent(h, s, run[..|run| - 1]);
      ShasPresentStep(h, GExec(h, s, run[..|run| - 1]), run[|run| - 1]);
    }
  }
}
