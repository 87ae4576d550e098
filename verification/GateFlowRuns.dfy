/** The same way in the step machine: prepare, signatures and the second call, step by step. */
module GateFlowRuns {
  import opened Strings
  import opened Validate
  import opened Files
  import opened Edits
  import opened Transactions
  import opened Protocol
  import opened Quorum
  import opened QuorumLaws
  import opened QuorumRecords
  import opened QuorumFlow
  import opened Gate
  import opened GateLaws
  import opened GateFlow
  import opened GateRuns
  import opened GateAlone
  import opened GateRefines
  import Canonical

  /** The signing calls of the operators, one after another. */
  function SignRuns(cids: seq<Cid>, f: PolicyFile, app: string, env: string, recipient: string, signers: seq<Operator>)
    : seq<GAction>
    requires |cids| == |signers|
  {
    if signers == [] then []
    else
      var n := |signers| - 1;
      SignRuns(cids[..n], f, app, env, recipient, signers[..n])
        + Alone(cids[n], Signing(f, app, env, recipient, signers[n].recipient), 4)
  }

  ghost predicate NewCalls(s: GSys, cids: seq<Cid>) {
    && (forall i :: 0 <= i < |cids| ==> cids[i] !in s.calls)
    && forall i, j :: 0 <= i < j < |cids| ==> cids[i] != cids[j]
  }

  /** The directory is `dir`, and nothing but the calls `cids` has been made. */
  ghost predicate SignedSo(s: GSys, x: GSys, cids: seq<Cid>, dir: PendingDir) {
    x.sys == s.sys && x.dir == dir && forall c :: c in x.calls <==> c in s.calls || c in cids
  }

  lemma OneMoreSigned(h: Digests, s: GSys, x: GSys, cids: seq<Cid>, dir: PendingDir, c: Cid, r: Request)
    requires SignedSo(s, x, cids, dir) && r.Signing? && c !in s.calls && c !in cids
    ensures SignedSo(s, GExec(h, x, Alone(c, r, 4)), cids + [c],
                     SignBy(h, dir, r.f, r.app, r.env, r.recipient, r.who, SignOk).0)
  {
    SignsAlone(h, x, c, r);
  }

  /** Each signing call leaves what SignBy leaves, and the other calls alone. */
  lemma {:induction false} AllSignAlone(h: Digests, s: GSys, cids: seq<Cid>, f: PolicyFile, app: string, env: string,
                                        recipient: string, signers: seq<Operator>)
    requires |cids| == |signers| && NewCalls(s, cids)
    ensures SignedSo(s, GExec(h, s, SignRuns(cids, f, app, env, recipient, signers)), cids,
                     SignedAll(h, s.dir, f, app, env, recipient, signers))
  {
    if signers != [] {
      var n := |signers| - 1;
      var r := Signing(f, app, env, recipient, signers[n].recipient);
      var before := SignRuns(cids[..n], f, app, env, recipient, signers[..n]);
      AllSignAlone(h, s, cids[..n], f, app, env, recipient, signers[..n]);
      assert cids[n] !in cids[..n] && cids == cids[..n] + [cids[n]];
      OneMoreSigned(h, s, GExec(h, s, before), cids[..n], SignedAll(h, s.dir, f, app, env, recipient, signers[..n]),
                    cids[n], r);
      GExecJoin(h, s, before, Alone(cids[n], r, 4));
    }
  }

  /** Two calls of the maintainer for the same addition. */
  predicate SameAddition(r: Request, again: Request, policy: Policy, cleaned: string) {
    && r.Adding? && again.Adding? && Asks(r.f, policy, AsCall(r), cleaned) && Asks(again.f, policy, AsCall(again), cleaned)
    && again.f == r.f && again.app == r.app && again.env == r.env && again.who == r.who
    && ValidName(r.app) && ValidName(r.env)
  }

  lemma {:induction false} PreparesThrough(h: Digests, s: GSys, c: Cid, r: Request, policy: Policy, cleaned: string,
                                           meta: EnvMeta)
    requires c !in s.calls && s.sys.lock == FREE && r.Adding? && Asks(r.f, policy, AsCall(r), cleaned)
    requires META_NAME !in s.dir && ValidName(r.app) && ValidName(r.env) && FindEntry(s.sys.files, r.app, r.env) == Ok(meta)
    requires meta.sha != NoSha && forall op :: op in policy.operators ==> op.recipient != cleaned
    ensures var x := GExec(h, s, Alone(c, r, 3) + Gos(c, |policy.operators| + 1));
      OnlyNow(s, x, c, r, Waiting) && x.dir == Add(h, WorldOf(s), r.f, AsCall(r)).0.dir
  {
    var n, x := |policy.operators| + 1, GExec(h, s, Alone(c, r, 3));
    MayPrepare(s, r, policy, cleaned, meta);
    Opens(h, s, c, r);
    PreparationReplaces(h, x, c, r, Asked(s, r));
    GExecJoin(h, s, Alone(c, r, 3), Gos(c, n));
    OnlyTwice(s, x, GExec(h, x, Gos(c, n)), c, r, Preparing(Asked(s, r), 0), Waiting);
    PreparedEnds(h, s, x, GExec(h, x, Gos(c, n)), c, r, policy, cleaned);
  }

  lemma OnlyTwice(s: GSys, x: GSys, y: GSys, c: Cid, r: Request, pc: CallPc, after: CallPc)
    requires Here(s, x, c, r, pc) && OnlyNow(x, y, c, r, after)
    ensures OnlyNow(s, y, c, r, after)
  {
  }

  lemma MayPrepare(s: GSys, r: Request, policy: Policy, cleaned: string, meta: EnvMeta)
    requires r.Adding? && Asks(r.f, policy, AsCall(r), cleaned) && META_NAME !in s.dir
    requires ValidName(r.app) && ValidName(r.env) && FindEntry(s.sys.files, r.app, r.env) == Ok(meta)
    requires meta.sha != NoSha && forall op :: op in policy.operators ==> op.recipient != cleaned
    ensures CanPrepare(s, r) && LoadMeta(s.dir) == Ok(None) && Asked(s, r).policy == policy
    ensures AfterPolicy(r, false) == Gated(policy, cleaned)
  {
    assert r.app != "" && r.env != "" && policy.operators != [];
  }

  /** The run: prepare, sign, and the second call to its end. */
  function PrepareSteps(c: Cid, r: Request, policy: Policy): seq<GAction> {
    Alone(c, r, 3) + Gos(c, |policy.operators| + 1)
  }

  /** The flow is complete in the step machine too: after the first call and the signatures exactly the
      signers are counted, and the second call, run through, is granted if and only if at least M have
      signed and the store's own operation succeeds. The store is then as that operation leaves it,
      and nothing is pending any more. */
  lemma {:induction false} FlowRuns(h: Digests, s: GSys, c: Cid, r: Request, policy: Policy, cleaned: string,
                                    meta: EnvMeta, cids: seq<Cid>, signers: seq<Operator>, d: Cid, again: Request, p: Pid)
    requires NewCalls(s, [c] + cids + [d]) && s.sys.lock == FREE && p !in s.sys.procs && |cids| == |signers|
    requires SameAddition(r, again, policy, cleaned) && FindEntry(s.sys.files, r.app, r.env) == Ok(meta)
    requires meta.sha != NoSha && (forall op :: op in policy.operators ==> op.recipient != cleaned)
    requires META_NAME !in s.dir && (forall name :: name in s.dir ==> !IsSig(name))
    requires DistinctThumbs(h, policy.operators) && !Canonical.EndsInEol(r.nonce) && AllSigners(policy, signers)
    ensures var x := GExec(h, s, PrepareSteps(c, r, policy));
      var y := GExec(h, x, SignRuns(cids, r.f, r.app, r.env, r.recipient, signers));
      var z := GExec(h, y, Through(y, d, again, p));
      var operation := RunJob(Disk(s.sys.files, s.sys.nextId), AddingJob(again, cleaned), NO_FAULTS);
      && c in x.calls && x.calls[c].pc.Waiting?
      && LoadMeta(y.dir).Ok? && LoadMeta(y.dir).value.Some?
      && Signers(h, y.dir, r.who, LoadMeta(y.dir).value.value) == OperatorSet(signers)
      && d in z.calls && (z.calls[d].pc.Granted? <==> |OperatorSet(signers)| >= policy.m && operation.error.None?)
      && (z.calls[d].pc.Granted? ==> Disk(z.sys.files, z.sys.nextId) == operation.disk && z.dir == map[])
  {
    var x := GExec(h, s, PrepareSteps(c, r, policy));
    var y := GExec(h, x, SignRuns(cids, r.f, r.app, r.env, r.recipient, signers));
    ApartCalls(s, c, cids, d);
    PreparesThrough(h, s, c, r, policy, cleaned, meta);
    ApartAfter(s, x, c, r, cids);
    AllSignAlone(h, x, cids, r.f, r.app, r.env, r.recipient, signers);
    FlowCompletes(h, WorldOf(s), r.f, policy, AsCall(r), cleaned, meta, signers, AsCall(again), WorldOf(s).disk);
    AddAlone(h, y, d, again, p);
    GrantedIs(h, y, GExec(h, y, Through(y, d, again, p)), d, again, cleaned);
  }

  lemma ApartCalls(s: GSys, c: Cid, cids: seq<Cid>, d: Cid)
    requires NewCalls(s, [c] + cids + [d])
    ensures c !in s.calls && d !in s.calls && d != c && c !in cids && d !in cids && NewCalls(s, cids)
  {
    var all := [c] + cids + [d];
    assert all[0] == c && all[|all| - 1] == d && forall i :: 0 <= i < |cids| ==> all[i + 1] == cids[i];
    forall i | 0 <= i < |cids|
      ensures cids[i] !in s.calls && cids[i] != c && cids[i] != d
    {
      assert all[i + 1] == cids[i];
    }
    forall i, j | 0 <= i < j < |cids|
      ensures cids[i] != cids[j]
    {
      assert all[i + 1] != all[j + 1];
    }
  }

  lemma ApartAfter(s: GSys, x: GSys, c: Cid, r: Request, cids: seq<Cid>)
    requires OnlyNow(s, x, c, r, Waiting) && NewCalls(s, cids) && c !in cids
    ensures NewCalls(x, cids)
  {
  }

  lemma GrantedIs(h: Digests, y: GSys, z: GSys, d: Cid, r: Request, cleaned: string)
    requires r.Adding? && r.f.Given? && !r.bootstrap && CleanRecipient(r.recipient) == Some(cleaned)
    requires var (w, answer) := Add(h, WorldOf(y), r.f, AsCall(r));
      Ends(y, z, d, r, w, answer) && (answer.Ok? ==> answer.value.Added?)
    ensures d in z.calls && (z.calls[d].pc.Granted? <==> Add(h, WorldOf(y), r.f, AsCall(r)).1.Ok?)
    ensures z.calls[d].pc.Granted? ==>
      && Disk(z.sys.files, z.sys.nextId) == RunJob(WorldOf(y).disk, AddingJob(r, cleaned), NO_FAULTS).disk
      && z.dir == map[]
  {
    if Add(h, WorldOf(y), r.f, AsCall(r)).1.Ok? {
      AddedByOperation(h, WorldOf(y), r.f, AsCall(r));
      assert Cleared(y.dir, {}) == map[];
    }
  }
}
