/** The way from prepare over the signatures to the count: what an honest run of it leaves in the
    pending directory. */
module QuorumFlow {
  import opened Strings
  import opened Sorting
  import opened Quorum
  import opened QuorumLaws
  import opened QuorumRecords
  import Files
  import Canonical

  /** `m` is pending, and every operator it lists has a challenge that only they can open. */
  ghost predicate Awaiting(h: Digests, dir: PendingDir, m: Meta) {
    && LoadMeta(dir) == Ok(Some(m))
    && forall op :: op in m.operators ==>
         && ChallengeName(h.thumb(op.recipient)) in dir
         && dir[ChallengeName(h.thumb(op.recipient))]
              == Age([op.recipient], Canonical.Message(m.app, m.env, m.newRecipient, h.hex(m.sha), m.nonce))
  }

  // ---- prepare ------------------------------------------------------------------------------------

  lemma {:induction false} ChallengesReach(h: Digests, dir: PendingDir, ops: seq<Operator>, message: string, op: Operator)
    requires op in ops && DistinctThumbs(h, ops)
    ensures var name := ChallengeName(h.thumb(op.recipient));
      name in Challenges(h, dir, ops, message) && Challenges(h, dir, ops, message)[name] == Age([op.recipient], message)
  {
    var n := |ops| - 1;
    if ops[n] != op {
      assert op in ops[..n] && DistinctThumbs(h, ops[..n]) by {
        assert ops == ops[..n] + [ops[n]];
      }
      ChallengesReach(h, dir, ops[..n], message, op);
      if ChallengeName(h.thumb(op.recipient)) == ChallengeName(h.thumb(ops[n].recipient)) {
        ChallengeNameInjective(h.thumb(op.recipient), h.thumb(ops[n].recipient));
      }
    }
  }

  lemma {:induction false} ChallengesSpare(h: Digests, dir: PendingDir, ops: seq<Operator>, message: string, name: string)
    requires IsSig(name)
    ensures name in Challenges(h, dir, ops, message) <==> name in dir
    ensures name in dir ==> Challenges(h, dir, ops, message)[name] == dir[name]
  {
    if ops != [] {
      var n := |ops| - 1;
      ChallengesSpare(h, dir, ops[..n], message, name);
      FileNames(h.thumb(ops[n].recipient));
    }
  }

  /** A preparation in which nothing fails is refused only for empty fields and for a recipient who
      is an operator already. Otherwise every operator of the policy gets a challenge, and what is
      pending names the addition, the bundle, the policy and the caller as the verifier; no signature
      file is touched. */
  lemma {:induction false} PrepareOpens(h: Digests, dir: PendingDir, q: PrepareRequest, nonce: string)
    requires DistinctThumbs(h, q.policy.operators)
    ensures var (after, e) := PrepareRun(h, dir, q, nonce, NoFault);
      if q.app == "" || q.env == "" || q.newRecipient == "" || q.sha == Files.NoSha || q.verifier == ""
         || q.policy.operators == [] then after == dir && e == Some(EmptyInput)
      else if exists op :: op in q.policy.operators && op.recipient == q.newRecipient then
        after == dir && e == Some(OperatorIsNew)
      else
        && e == None && LoadMeta(after).Ok? && LoadMeta(after).value.Some?
        && Awaiting(h, after, LoadMeta(after).value.value)
        && PendingFor(LoadMeta(after).value.value, q, nonce)
        && SameSignatures(dir, after)
  {
    var ops, message := q.policy.operators, Canonical.Message(q.app, q.env, q.newRecipient, h.hex(q.sha), nonce);
    var (after, e) := PrepareRun(h, dir, q, nonce, NoFault);
    if e.None? {
      forall op | op in ops
        ensures ChallengeName(h.thumb(op.recipient)) in after
        ensures after[ChallengeName(h.thumb(op.recipient))] == Age([op.recipient], message)
      {
        ChallengesReach(h, dir, ops, message, op);
        FileNames(h.thumb(op.recipient));
      }
      forall name | IsSig(name)
        ensures (name in after <==> name in dir) && (name in dir ==> after[name] == dir[name])
      {
        ChallengesSpare(h, dir, ops, message, name);
        NotSig(META_NAME);
      }
    }
  }

  predicate PendingFor(m: Meta, q: PrepareRequest, nonce: string) {
    && m.app == q.app && m.env == q.env && m.newRecipient == q.newRecipient && m.sha == q.sha && m.nonce == nonce
    && m.verifier == q.verifier && m.operators == q.policy.operators && m.m == q.policy.m
  }

  ghost predicate SameSignatures(a: PendingDir, b: PendingDir) {
    forall name :: IsSig(name) ==> (name in b <==> name in a) && (name in a ==> b[name] == a[name])
  }

  // ---- sign ---------------------------------------------------------------------------------------

  lemma OwnTextAccepted(h: Digests, m: Meta)
    requires !Canonical.EndsInEol(m.nonce)
    ensures Accepted(h, Canonical.Message(m.app, m.env, m.newRecipient, h.hex(m.sha), m.nonce), m)
  {
    var text := Canonical.Message(m.app, m.env, m.newRecipient, h.hex(m.sha), m.nonce);
    assert AllIn("", "\r\n") && text == text + "";
    Canonical.AcceptsExactly(text, m.app, m.env, m.newRecipient, h.hex(m.sha), m.nonce);
  }

  /** The signature file of `op`, readable by the verifier. */
  ghost predicate SignedInto(h: Digests, dir: PendingDir, after: PendingDir, m: Meta, op: Operator) {
    var text := Canonical.Message(m.app, m.env, m.newRecipient, h.hex(m.sha), m.nonce);
    after == dir[SigName(h.thumb(op.recipient)) := Age([m.verifier], text)]
  }

  /** Every listed operator can sign what is pending. */
  lemma SignReaches(h: Digests, dir: PendingDir, q: SignRequest, m: Meta, op: Operator)
    requires Awaiting(h, dir, m) && op in m.operators && !Canonical.EndsInEol(m.nonce)
    requires q == SignRequest(m.app, m.env, m.newRecipient, op.recipient) && op.recipient != "" && m.newRecipient != ""
    ensures var (after, e) := SignRun(h, dir, q, op.recipient, SignOk);
      e == None && SignedInto(h, dir, after, m, op)
  {
    OwnTextAccepted(h, m);
  }

  /** A signature changes the directory only for the addition that is pending, by one file of the
      signer's own name, with a text the signer could decrypt and that is the pending message. */
  lemma SignsOnlyPending(h: Digests, dir: PendingDir, q: SignRequest, who: string, f: SignFault)
    requires SignRun(h, dir, q, who, f).0 != dir || SignRun(h, dir, q, who, f).1.None?
    ensures LoadMeta(dir).Ok? && LoadMeta(dir).value.Some?
    ensures var m, after := LoadMeta(dir).value.value, SignRun(h, dir, q, who, f).0;
      var name, challenge := SigName(h.thumb(q.operator)), ChallengeName(h.thumb(q.operator));
      && m.app == q.app && m.env == q.env && m.newRecipient == q.newRecipient
      && (exists op :: op in m.operators && h.thumb(op.recipient) == h.thumb(q.operator))
      && Decrypted(dir, challenge, who).Some? && Accepted(h, Decrypted(dir, challenge, who).value, m)
      && (after == dir[name := Torn] || after == dir
          || after == dir[name := Age([m.verifier], Decrypted(dir, challenge, who).value)])
  {
  }

  lemma AwaitingStill(h: Digests, dir: PendingDir, after: PendingDir, m: Meta, op: Operator)
    requires Awaiting(h, dir, m) && SignedInto(h, dir, after, m, op)
    ensures Awaiting(h, after, m)
  {
    FileNames(h.thumb(op.recipient));
    forall o | o in m.operators
      ensures ChallengeName(h.thumb(o.recipient)) != SigName(h.thumb(op.recipient))
    {
      FileNames(h.thumb(o.recipient));
    }
  }

  /** One more signer, and nobody less. */
  lemma {:induction false} SignerCounts(h: Digests, dir: PendingDir, after: PendingDir, m: Meta, op: Operator)
    requires SignedInto(h, dir, after, m, op) && op in m.operators && DistinctThumbs(h, m.operators)
    requires !Canonical.EndsInEol(m.nonce)
    ensures Signers(h, after, m.verifier, m) == Signers(h, dir, m.verifier, m) + {op}
  {
    OwnTextAccepted(h, m);
    forall o | o in m.operators
      ensures o in Signers(h, after, m.verifier, m) <==> o in Signers(h, dir, m.verifier, m) + {op}
    {
      var name := SigName(h.thumb(o.recipient));
      FileNames(h.thumb(o.recipient));
      FileNames(h.thumb(op.recipient));
      if name == SigName(h.thumb(op.recipient)) {
        assert h.thumb(o.recipient) == h.thumb(op.recipient);
      } else {
        assert Decrypted(after, name, m.verifier) == Decrypted(dir, name, m.verifier);
      }
    }
  }

  lemma NobodyHasSigned(h: Digests, dir: PendingDir, who: string, m: Meta)
    requires forall name :: name in dir ==> !IsSig(name)
    ensures Signers(h, dir, who, m) == {}
  {
    forall op | op in m.operators
      ensures !Signs(h, dir, who, m, SigName(h.thumb(op.recipient)))
    {
      FileNames(h.thumb(op.recipient));
    }
  }

  // ---- the refusal's text -------------------------------------------------------------------------

  /** A joined list falls apart at every separator into the joined halves: no part is lost, added,
      or moved. */
  lemma {:induction false} JoinSplits(parts: seq<string>, sep: string, i: nat)
    requires i <= |parts|
    ensures 0 < i < |parts| ==> Join(parts, sep) == Join(parts[..i], sep) + sep + Join(parts[i..], sep)
    ensures |parts| == 1 ==> Join(parts, sep) == parts[0]
    ensures parts == [] ==> Join(parts, sep) == ""
  {
    if 0 < i < |parts| {
      if i == 1 {
        assert parts[..1] == [parts[0]];
      } else {
        JoinSplits(parts[1..], sep, i - 1);
        assert parts[..i][1..] == parts[1..][..i - 1] && parts[i..] == parts[1..][i - 1..];
        assert parts[0] + sep + (Join(parts[1..][..i - 1], sep) + sep + Join(parts[i..], sep))
            == (parts[0] + sep + Join(parts[1..][..i - 1], sep)) + sep + Join(parts[i..], sep);
      }
    }
  }
}
