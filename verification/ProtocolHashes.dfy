/** Bundle hashes over time: once the manifest has moved past a hash, no run brings it back. */
module ProtocolHashes {
  import opened Strings
  import opened Validate
  import opened Files
  import opened Edits
  import opened Transactions
  import opened StoreLaws
  import opened Protocol
  import opened ProtocolBasic

  /** The process has written a bundle that the manifest does not name yet. */
  predicate Writing(pc: Pc) {
    pc.BundleDone? || pc.OriginsDone?
  }

  /** No bundle with an id from `nextId` on has this hash. */
  predicate PastSha(sha: Sha, nextId: nat) {
    sha.ShaOf? && (sha.content.Bundle? ==> sha.content.cipher.id < nextId)
  }

  /** No commit under way or still to come can give a manifest entry this hash. */
  ghost predicate Settled(s: Sys, sha: Sha) {
    && PastSha(sha, s.nextId)
    && forall p :: p in s.procs && Writing(s.procs[p].pc) ==> sha != ShaOf(Bundle(s.procs[p].pc.cipher))
  }

  ghost predicate CiphersPast(s: Sys) {
    forall p :: p in s.procs && Writing(s.procs[p].pc) ==> s.procs[p].pc.cipher.id < s.nextId
  }

  /** The hash of a manifest entry, NoSha when there is no entry. */
  function ShaAt(files: FileMap, app: string, env: string): Sha {
    match FindEntry(files, app, env)
    case Ok(meta) => meta.sha
    case Err(_) => NoSha
  }

  ghost predicate EntrySettled(s: Sys, app: string, env: string) {
    ShaAt(s.files, app, env) != NoSha ==> Settled(s, ShaAt(s.files, app, env))
  }

  ghost predicate HashesOk(s: Sys) {
    CiphersPast(s) && forall app, env :: EntrySettled(s, app, env)
  }

  // ---- one step -----------------------------------------------------------------------------------

  /** A process that is writing after a step was writing the same bundle before it, or has just
      taken the next id. */
  lemma WritingStep(s: Sys, p: Pid, fail: bool)
    requires p in s.procs && Writing(Apply(s, Step(p, fail)).procs[p].pc)
    ensures var pc, after := s.procs[p].pc, Apply(s, Step(p, fail)).procs[p].pc;
      || (Writing(pc) && after.cipher == pc.cipher)
      || (after.cipher.id == s.nextId && Apply(s, Step(p, fail)).nextId == s.nextId + 1)
  {
    var pc := s.procs[p].pc;
    match pc
    case Checked(_, _, _, _) => assert Apply(s, Step(p, fail)) == StepBundle(s, p, pc, fail);
    case BundleDone(c, _, _, _, _) =>
      if c.origins.Some? {
        assert Apply(s, Step(p, fail)) == StepOrigins(s, p, pc, fail);
      }
    case _ => NotWriting(s, p, fail);
  }

  lemma NotWriting(s: Sys, p: Pid, fail: bool)
    requires p in s.procs && !s.procs[p].pc.Checked? && !s.procs[p].pc.BundleDone?
    ensures !Writing(Apply(s, Step(p, fail)).procs[p].pc)
  {
    if HoldsExclusive(s.procs[p].pc) {
      HolderNotWriting(s, p, fail);
    } else {
      OutsideNotWriting(s, p, fail);
    }
  }

  lemma HolderNotWriting(s: Sys, p: Pid, fail: bool)
    requires p in s.procs && HoldsExclusive(s.procs[p].pc) && !s.procs[p].pc.Checked? && !s.procs[p].pc.BundleDone?
    ensures !Writing(Apply(s, Step(p, fail)).procs[p].pc)
  {
  }

  lemma OutsideNotWriting(s: Sys, p: Pid, fail: bool)
    requires p in s.procs && !HoldsExclusive(s.procs[p].pc)
    ensures !Writing(Apply(s, Step(p, fail)).procs[p].pc)
  {
  }

  lemma IdsGrow(s: Sys, a: Action)
    ensures Apply(s, a).nextId >= s.nextId
  {
  }

  lemma SettledStep(s: Sys, a: Action, sha: Sha)
    requires Settled(s, sha)
    ensures Settled(Apply(s, a), sha)
  {
    var t := Apply(s, a);
    IdsGrow(s, a);
    forall q | q in t.procs && Writing(t.procs[q].pc)
      ensures sha != ShaOf(Bundle(t.procs[q].pc.cipher))
    {
      if q in s.procs && a == Step(q, a.Step? && a.fail) {
        WritingStep(s, q, a.fail);
      } else {
        OtherProcs(s, a, q);
      }
    }
  }

  lemma OtherProcs(s: Sys, a: Action, q: Pid)
    requires q in Apply(s, a).procs && (a.Step? ==> a.pid != q)
    ensures if q in s.procs then Apply(s, a).procs[q] == s.procs[q] else Apply(s, a).procs[q].pc.Idle?
  {
  }

  lemma CiphersPastStep(s: Sys, a: Action)
    requires CiphersPast(s)
    ensures CiphersPast(Apply(s, a))
  {
    var t := Apply(s, a);
    IdsGrow(s, a);
    forall q | q in t.procs && Writing(t.procs[q].pc)
      ensures t.procs[q].pc.cipher.id < t.nextId
    {
      if q in s.procs && a == Step(q, a.Step? && a.fail) {
        WritingStep(s, q, a.fail);
      } else {
        OtherProcs(s, a, q);
      }
    }
  }

  /** After a commit nobody is writing, and the new hash is settled at once. */
  lemma CommitSettles(s: Sys, a: Action)
    requires Basic(s) && CiphersPast(s) && Commits(s, a)
    ensures Settled(Apply(s, a), ShaOf(Bundle(s.procs[a.pid].pc.cipher)))
  {
    var t := Apply(s, a);
    IdsGrow(s, a);
    BasicStep(s, a);
    CommitLeaves(s, a);
    HolderHoldsLock(s, a.pid);
    assert t.lock.exclusive == None;
  }

  lemma ShaAfter(s: Sys, a: Action, app: string, env: string)
    requires Basic(s)
    ensures ShaAt(Apply(s, a).files, app, env)
         == if Commits(s, a) && s.procs[a.pid].pc.c.app == app && s.procs[a.pid].pc.c.env == env
            then ShaOf(Bundle(s.procs[a.pid].pc.cipher)) else ShaAt(s.files, app, env)
  {
    BasicStep(s, a);
    if Commits(s, a) {
      CommitStep(s, a);
      var pc := s.procs[a.pid].pc;
      MergeIntoFrame(LoadManifest(s.files).value, pc.c.app, pc.c.env, Stamped(pc.c, pc.cipher), app, env);
    }
  }

  lemma HashedStep(s: Sys, a: Action)
    requires Basic(s) && HashesOk(s)
    ensures HashesOk(Apply(s, a))
  {
    CiphersPastStep(s, a);
    forall app, env
      ensures EntrySettled(Apply(s, a), app, env)
    {
      assert EntrySettled(s, app, env);
      ShaAfter(s, a, app, env);
      if ShaAt(Apply(s, a).files, app, env) == ShaAt(s.files, app, env) {
        if ShaAt(s.files, app, env) != NoSha {
          SettledStep(s, a, ShaAt(s.files, app, env));
        }
      } else {
        CommitSettles(s, a);
      }
    }
  }

  // ---- whole runs ---------------------------------------------------------------------------------

  lemma StartHashed(s: Sys)
    requires Start(s) && Sound(s.files) && FreshIds(Disk(s.files, s.nextId))
    ensures HashesOk(s)
  {
    forall app, env
      ensures EntrySettled(s, app, env)
    {
      EntryOf(s.files, app, env);
    }
  }

  lemma {:induction false} RunHashed(s: Sys, run: seq<Action>)
    requires Start(s) && Sound(s.files) && FreshIds(Disk(s.files, s.nextId))
    ensures HashesOk(Exec(s, run))
  {
    StartHashed(s);
    if run != [] {
      var n := |run| - 1;
      RunHashed(s, run[..n]);
      RunBasic(s, run[..n]);
      HashedStep(Exec(s, run[..n]), run[n]);
    }
  }

  // ---- moving past a hash -------------------------------------------------------------------------

  /** The manifest entry, if there is one, has another hash, and always will. */
  ghost predicate Moved(s: Sys, app: string, env: string, sha: Sha) {
    Settled(s, sha) && ShaAt(s.files, app, env) != sha
  }

  lemma MovedStep(s: Sys, a: Action, app: string, env: string, sha: Sha)
    requires Basic(s) && Moved(s, app, env, sha)
    ensures Moved(Apply(s, a), app, env, sha)
  {
    SettledStep(s, a, sha);
    ShaAfter(s, a, app, env);
  }

  /** A hash the manifest has moved past never comes back, whoever runs and whatever fails. */
  lemma {:induction false} MovedForGood(s: Sys, run: seq<Action>, more: seq<Action>, app: string, env: string, sha: Sha)
    requires Start(s) && Sound(s.files) && Moved(Exec(s, run), app, env, sha)
    ensures Moved(Exec(s, run + more), app, env, sha)
  {
    if more == [] {
      assert run + more == run;
    } else {
      var n := |more| - 1;
      MovedForGood(s, run, more[..n], app, env, sha);
      assert (run + more)[..|run + more| - 1] == run + more[..n];
      RunBasic(s, run + more[..n]);
      MovedStep(Exec(s, run + more[..n]), more[n], app, env, sha);
    }
  }

  // ---- hashes and versions ------------------------------------------------------------------------

  /** `found` was the entry once. It still is, or a newer version with another hash has taken its
      place. */
  ghost predicate Follows(s: Sys, app: string, env: string, found: EnvMeta) {
    && (found.sha != NoSha ==> Settled(s, found.sha))
    && match FindEntry(s.files, app, env)
       case Err(_) => false
       case Ok(cur) =>
         if cur.version == found.version then cur == found
         else cur.version > found.version && cur.sha != found.sha
  }

  lemma FollowsNow(s: Sys, app: string, env: string, found: EnvMeta)
    requires HashesOk(s) && FindEntry(s.files, app, env) == Ok(found)
    ensures Follows(s, app, env, found)
  {
    assert EntrySettled(s, app, env);
  }

  lemma FollowsStep(s: Sys, a: Action, app: string, env: string, found: EnvMeta)
    requires Basic(s) && Follows(s, app, env, found)
    ensures Follows(Apply(s, a), app, env, found)
  {
    BasicStep(s, a);
    if found.sha != NoSha {
      SettledStep(s, a, found.sha);
    }
    if Commits(s, a) {
      CommitStep(s, a);
      var pc := s.procs[a.pid].pc;
      MergeIntoFrame(LoadManifest(s.files).value, pc.c.app, pc.c.env, Stamped(pc.c, pc.cipher), app, env);
      CommitNumber(s, a, app, env);
    }
  }

  // ---- positions in the log -----------------------------------------------------------------------

  /** No commit to the namespace since the log had `at` entries. */
  ghost predicate NoneSince(log: seq<Event>, at: nat, app: string, env: string)
    requires at <= |log|
  {
    forall i :: at <= i < |log| ==> !Concerns(log[i], app, env)
  }

  lemma {:induction false} CountSince(log: seq<Event>, at: nat, app: string, env: string)
    requires at <= |log|
    ensures CommitCount(log, app, env) >= CommitCount(log[..at], app, env)
    ensures CommitCount(log, app, env) == CommitCount(log[..at], app, env) <==> NoneSince(log, at, app, env)
  {
    if at == |log| {
      assert log[..at] == log;
    } else {
      var n := |log| - 1;
      CountSince(log[..n], at, app, env);
      assert log[..n][..at] == log[..at];
      assert NoneSince(log, at, app, env) <==> NoneSince(log[..n], at, app, env) && !Concerns(log[n], app, env);
    }
  }

  lemma LogGrows(s: Sys, a: Action)
    requires Basic(s)
    ensures |s.log| <= |Apply(s, a).log| && Apply(s, a).log[..|s.log|] == s.log
  {
    BasicStep(s, a);
    if Commits(s, a) {
      CommitStep(s, a);
    }
  }
}
