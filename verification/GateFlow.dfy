/** The whole way of a gated addition: prepare, signatures by any operators, and the second call. */
module GateFlow {
  import opened Strings
  import opened Validate
  import opened Files
  import opened Edits
  import opened Transactions
  import opened Quorum
  import opened QuorumLaws
  import opened QuorumRecords
  import opened QuorumFlow
  import opened Gate
  import opened GateLaws
  import Canonical

  /** The maintainer's call, as an addition of `cleaned` under the policy `p`. */
  predicate Asks(f: PolicyFile, p: Policy, q: AddRequest, cleaned: string) {
    && f == Given(p) && ValidPolicy(p) && OperatorsClean(p.operators)
    && CleanRecipient(q.recipient) == Some(cleaned) && !q.bootstrap && q.who != ""
  }

  /** The first call: with nothing pending it only prepares, and tells what to wait for. */
  lemma {:induction false} FirstCall(h: Digests, w: World, f: PolicyFile, p: Policy, q: AddRequest, cleaned: string,
                                     meta: EnvMeta)
    requires Asks(f, p, q, cleaned) && q.prepare.NoFault? && DistinctThumbs(h, p.operators)
    requires LoadMeta(w.dir) == Ok(None) && ValidName(q.app) && ValidName(q.env)
    requires FindEntry(w.disk.files, q.app, q.env) == Ok(meta)
    ensures var (after, answer) := Add(h, w, f, q);
      if meta.sha == NoSha then after == w && answer == Err(PendingError(EmptyInput))
      else if exists op :: op in p.operators && op.recipient == cleaned then
        after == w && answer == Err(PendingError(OperatorIsNew))
      else
        && after.disk == w.disk && answer == Ok(AwaitSignatures(p.operators, p.m))
        && LoadMeta(after.dir).Ok? && LoadMeta(after.dir).value.Some?
        && var m := LoadMeta(after.dir).value.value;
           && Awaiting(h, after.dir, m) && SameSignatures(w.dir, after.dir)
           && PendingFor(m, PrepareRequest(q.app, q.env, cleaned, meta.sha, p, q.who), q.nonce)
  {
    assert q.app != "" && q.env != "" && p.operators != [];
    PrepareOpens(h, w.dir, PrepareRequest(q.app, q.env, cleaned, meta.sha, p, q.who), q.nonce);
  }

  /** The directory after the listed operators have signed one after another, each with the identity
      of their own recipient. */
  function SignedAll(h: Digests, dir: PendingDir, f: PolicyFile, app: string, env: string, recipient: string,
                     signers: seq<Operator>): PendingDir
  {
    if signers == [] then dir
    else
      var n := |signers| - 1;
      SignBy(h, SignedAll(h, dir, f, app, env, recipient, signers[..n]), f, app, env, recipient, signers[n].recipient,
             SignOk).0
  }

  /** An operator of the policy whose recipient has no space around it is found by it. */
  lemma FoundAsSigner(p: Policy, op: Operator)
    requires ValidPolicy(p) && op in p.operators && TrimSpace(op.recipient) == op.recipient
    ensures FindByRecipient(p.operators, op.recipient) == Some(op)
  {
    var found := FindByRecipient(p.operators, op.recipient);
    assert found.Some?;
    var i :| 0 <= i < |p.operators| && p.operators[i] == op;
    var j :| 0 <= j < |p.operators| && p.operators[j] == found.value;
    assert i == j;
  }

  /** And one whose recipient has a space around it can never sign. */
  lemma {:induction false} UntrimmedCannotSign(h: Digests, dir: PendingDir, f: PolicyFile, p: Policy, m: Meta,
                                               recipient: string, op: Operator, fault: SignFault)
    requires PendingUnder(h, dir, f, p, m, recipient) && op in p.operators && TrimSpace(op.recipient) != op.recipient
    ensures SignBy(h, dir, f, m.app, m.env, recipient, op.recipient, fault).1.Some?
    ensures SignBy(h, dir, f, m.app, m.env, recipient, op.recipient, fault).0 == dir
  {
    var found := FindByRecipient(p.operators, op.recipient);
    if found.Some? {
      assert dir[ChallengeName(h.thumb(found.value.recipient))].to == [found.value.recipient];
      assert op.recipient !in [found.value.recipient];
    }
  }

  /** The addition `m` is pending under the policy, with the operators of the policy. */
  ghost predicate PendingUnder(h: Digests, dir: PendingDir, f: PolicyFile, p: Policy, m: Meta, recipient: string) {
    && f == Given(p) && ValidPolicy(p) && Awaiting(h, dir, m) && m.operators == p.operators
    && CleanRecipient(recipient) == Some(m.newRecipient) && !Canonical.EndsInEol(m.nonce)
    && DistinctThumbs(h, p.operators)
  }

  /** One signature: it counts for the verifier that the metadata names. */
  lemma {:induction false} OneSigns(h: Digests, dir: PendingDir, f: PolicyFile, p: Policy, m: Meta, recipient: string,
                                    op: Operator)
    requires PendingUnder(h, dir, f, p, m, recipient) && op in p.operators && TrimSpace(op.recipient) == op.recipient
    ensures var (after, e) := SignBy(h, dir, f, m.app, m.env, recipient, op.recipient, SignOk);
      && e == None && PendingUnder(h, after, f, p, m, recipient)
      && Signers(h, after, m.verifier, m) == Signers(h, dir, m.verifier, m) + {op}
  {
    FoundAsSigner(p, op);
    SignReaches(h, dir, SignRequest(m.app, m.env, m.newRecipient, op.recipient), m, op);
    var after := SignBy(h, dir, f, m.app, m.env, recipient, op.recipient, SignOk).0;
    AwaitingStill(h, dir, after, m, op);
    SignerCounts(h, dir, after, m, op);
  }

  /** A signing call changes the directory, or succeeds, only under a policy that lists the caller, for
      the addition that is pending, and only by a file of the caller's own name. */
  lemma {:induction false} SignsOnlyListed(h: Digests, dir: PendingDir, f: PolicyFile, app: string, env: string,
                                           recipient: string, who: string, fault: SignFault)
    requires SignBy(h, dir, f, app, env, recipient, who, fault).0 != dir
      || SignBy(h, dir, f, app, env, recipient, who, fault).1.None?
    ensures f.Given? && ValidPolicy(f.policy) && who != "" && LoadMeta(dir).Ok? && LoadMeta(dir).value.Some?
    ensures var m, after := LoadMeta(dir).value.value, SignBy(h, dir, f, app, env, recipient, who, fault).0;
      && m.app == app && m.env == env && CleanRecipient(recipient) == Some(m.newRecipient)
      && exists op :: op in f.policy.operators && op.recipient == TrimSpace(who)
           && forall name :: name != SigName(h.thumb(op.recipient)) ==>
                (name in after <==> name in dir) && (name in dir ==> after[name] == dir[name])
  {
    var cleaned, op := CleanRecipient(recipient).value, FindByRecipient(f.policy.operators, who).value;
    SignsOnlyPending(h, dir, SignRequest(app, env, cleaned, op.recipient), who, fault);
    OneFile(dir, SignBy(h, dir, f, app, env, recipient, who, fault).0, SigName(h.thumb(op.recipient)));
  }

  lemma OneFile(dir: PendingDir, after: PendingDir, name: string)
    requires after == dir || (name in after && after == dir[name := after[name]])
    ensures forall other :: other != name ==>
      (other in after <==> other in dir) && (other in dir ==> after[other] == dir[other])
  {
  }

  /** Any operators, any number of them, in any order, some of them twice. */
  ghost predicate AllSigners(p: Policy, signers: seq<Operator>) {
    forall op :: op in signers ==> op in p.operators && TrimSpace(op.recipient) == op.recipient
  }

  lemma {:induction false} AllSign(h: Digests, dir: PendingDir, f: PolicyFile, p: Policy, m: Meta, recipient: string,
                                   signers: seq<Operator>)
    requires PendingUnder(h, dir, f, p, m, recipient) && AllSigners(p, signers)
    ensures var after := SignedAll(h, dir, f, m.app, m.env, recipient, signers);
      && PendingUnder(h, after, f, p, m, recipient)
      && Signers(h, after, m.verifier, m) == Signers(h, dir, m.verifier, m) + OperatorSet(signers)
  {
    if signers == [] {
      assert OperatorSet(signers) == {};
    } else {
      var n := |signers| - 1;
      assert signers == signers[..n] + [signers[n]];
      AllSign(h, dir, f, p, m, recipient, signers[..n]);
      OneSigns(h, SignedAll(h, dir, f, m.app, m.env, recipient, signers[..n]), f, p, m, recipient, signers[n]);
      SnocSet(signers[..n], signers[n]);
    }
  }

  /** The flow is complete. From a pending directory without metadata and signatures, with a nonce
      that does not end in a line end: the first call awaits signatures; after any of the policy's
      operators have signed, exactly they are counted; and the second call, on any store whose entry
      still has the prepared hash, adds the recipient if and only if at least M of them have signed
      and the store's own operation succeeds. */
  lemma {:induction false} FlowCompletes(h: Digests, w: World, f: PolicyFile, p: Policy, q: AddRequest, cleaned: string,
                                         meta: EnvMeta, signers: seq<Operator>, again: AddRequest, later: Disk)
    requires Asks(f, p, q, cleaned) && q.prepare.NoFault? && DistinctThumbs(h, p.operators)
    requires ValidName(q.app) && ValidName(q.env) && FindEntry(w.disk.files, q.app, q.env) == Ok(meta)
    requires meta.sha != NoSha && forall op :: op in p.operators ==> op.recipient != cleaned
    requires META_NAME !in w.dir && (forall name :: name in w.dir ==> !IsSig(name))
    requires !Canonical.EndsInEol(q.nonce) && AllSigners(p, signers)
    requires Asks(f, p, again, cleaned) && again.app == q.app && again.env == q.env && again.who == q.who
    requires FindEntry(later.files, q.app, q.env).Ok? && FindEntry(later.files, q.app, q.env).value.sha == meta.sha
    ensures var (after, answer) := Add(h, w, f, q);
      var dir := SignedAll(h, after.dir, f, q.app, q.env, q.recipient, signers);
      var operation := Mutate(q.app, q.env, q.who, Op.AddRecipient(cleaned), again.at);
      && after.disk == w.disk && answer == Ok(AwaitSignatures(p.operators, p.m))
      && LoadMeta(dir).Ok? && LoadMeta(dir).value.Some?
      && Signers(h, dir, q.who, LoadMeta(dir).value.value) == OperatorSet(signers)
      && (Add(h, World(later, dir), f, again).1.Ok? <==>
            |OperatorSet(signers)| >= p.m && RunJob(later, operation, again.writes).error.None?)
      && (Add(h, World(later, dir), f, again).1.Ok? ==> Add(h, World(later, dir), f, again).1.value.Added?)
  {
    FirstCall(h, w, f, p, q, cleaned, meta);
    var after := Add(h, w, f, q).0;
    var m := LoadMeta(after.dir).value.value;
    NoSignatures(w.dir, after.dir);
    NobodyHasSigned(h, after.dir, q.who, m);
    AllSign(h, after.dir, f, p, m, q.recipient, signers);
    SecondCall(h, World(later, SignedAll(h, after.dir, f, q.app, q.env, q.recipient, signers)), f, p, m, again);
  }

  lemma NoSignatures(a: PendingDir, b: PendingDir)
    requires SameSignatures(a, b) && forall name :: name in a ==> !IsSig(name)
    ensures forall name :: name in b ==> !IsSig(name)
  {
  }

  lemma {:induction false} SecondCall(h: Digests, w: World, f: PolicyFile, p: Policy, m: Meta, q: AddRequest)
    requires Asks(f, p, q, m.newRecipient) && PendingUnder(h, w.dir, f, p, m, q.recipient)
    requires m.app == q.app && m.env == q.env && m.m == p.m && ValidName(q.app) && ValidName(q.env)
    requires FindEntry(w.disk.files, q.app, q.env).Ok? && FindEntry(w.disk.files, q.app, q.env).value.sha == m.sha
    ensures Add(h, w, f, q).1.Ok? <==>
      && |Signers(h, w.dir, q.who, m)| >= p.m
      && RunJob(w.disk, Mutate(q.app, q.env, q.who, Op.AddRecipient(m.newRecipient), q.at), q.writes).error.None?
    ensures Add(h, w, f, q).1.Ok? ==> Add(h, w, f, q).1.value.Added?
  {
    assert Policy(m.m, m.operators) == p;
    GateDecides(h, w, f, q, m, m.newRecipient);
  }
}
