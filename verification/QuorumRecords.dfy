/** What is known of the pending files when only PrepareAdd and SignAdd write them: every challenge
    and every meta.json goes back to one preparation, every signature file to one signature by an
    operator who could read a challenge of that preparation. */
module QuorumRecords {
  import opened Strings
  import opened Quorum
  import opened QuorumLaws
  import Canonical

  /** A PrepareAdd that reached its writes, and a signature file that was written. */
  datatype Preparation = Preparation(request: PrepareRequest, nonce: string)

  datatype Signature = Signature(meta: Meta, operator: string, who: string)

  /** Who asked for what, and who signed what. */
  datatype Acts = Acts(prepared: set<Preparation>, signed: set<Signature>)

  ghost predicate Within(a: Acts, b: Acts) {
    a.prepared <= b.prepared && a.signed <= b.signed
  }

  function MetaFor(e: Preparation): Meta {
    MetaOf(e.request, e.nonce)
  }

  /** The hex text of a nonce. */
  predicate IsNonce(n: string) {
    n != "" && AllIn(n, "0123456789abcdef")
  }

  ghost predicate NoncesOk(prepared: set<Preparation>) {
    && (forall e :: e in prepared ==> IsNonce(e.nonce))
    && forall e, e' :: e in prepared && e' in prepared && e.nonce == e'.nonce ==> e == e'
  }

  /** The metadata of a recorded preparation. */
  ghost predicate MetaKnown(acts: Acts, m: Meta) {
    exists e :: e in acts.prepared && m == MetaFor(e)
  }

  ghost predicate IsSignature(h: Digests, name: string, to: seq<string>, plain: string, g: Signature) {
    name == SigName(h.thumb(g.operator)) && Accepted(h, plain, g.meta)
  }

  ghost predicate IsChallenge(h: Digests, name: string, to: seq<string>, plain: string, e: Preparation, op: Operator) {
    && op in e.request.policy.operators
    && name == ChallengeName(h.thumb(op.recipient)) && to == [op.recipient]
    && plain == MessageOf(h, MetaFor(e))
  }

  /** The file was written by a recorded preparation or signature. */
  ghost predicate FileOk(h: Digests, acts: Acts, name: string, file: PendingFile) {
    match file
    case MetaJson(m) => name == META_NAME ==> MetaKnown(acts, m)
    case Age(to, plain) =>
      if IsSig(name) then exists g :: g in acts.signed && IsSignature(h, name, to, plain, g)
      else exists e, op :: e in acts.prepared && IsChallenge(h, name, to, plain, e, op)
    case _ => true
  }

  ghost predicate FilesOk(h: Digests, acts: Acts, dir: PendingDir) {
    forall name :: name in dir ==> FileOk(h, acts, name, dir[name])
  }

  /** The signer decrypted a challenge addressed to one listed operator alone, of the very
      preparation whose metadata was signed. */
  ghost predicate SignerOk(h: Digests, acts: Acts, g: Signature) {
    exists e, op ::
      && e in acts.prepared && g.meta == MetaFor(e) && op in e.request.policy.operators
      && h.thumb(op.recipient) == h.thumb(g.operator) && g.who == op.recipient
  }

  ghost predicate ActsOk(h: Digests, acts: Acts) {
    NoncesOk(acts.prepared) && forall g :: g in acts.signed ==> SignerOk(h, acts, g)
  }

  // ---- more records ---------------------------------------------------------------------------

  lemma FileOkGrows(h: Digests, a: Acts, b: Acts, name: string, file: PendingFile)
    requires FileOk(h, a, name, file) && Within(a, b)
    ensures FileOk(h, b, name, file)
  {
    match file
    case MetaJson(m) =>
      if name == META_NAME {
        MetaKnownGrows(a, b, m);
      }
    case Age(to, plain) =>
      if IsSig(name) {
        var g :| g in a.signed && IsSignature(h, name, to, plain, g);
        assert g in b.signed;
      } else {
        var e, op :| e in a.prepared && IsChallenge(h, name, to, plain, e, op);
        assert e in b.prepared;
      }
    case _ =>
  }

  lemma MetaKnownGrows(a: Acts, b: Acts, m: Meta)
    requires MetaKnown(a, m) && Within(a, b)
    ensures MetaKnown(b, m)
  {
    var e :| e in a.prepared && m == MetaFor(e);
    assert e in b.prepared;
  }

  lemma SignerGrows(h: Digests, a: Acts, b: Acts, g: Signature)
    requires SignerOk(h, a, g) && Within(a, b)
    ensures SignerOk(h, b, g)
  {
    var e, op :| e in a.prepared && g.meta == MetaFor(e) && op in e.request.policy.operators
      && h.thumb(op.recipient) == h.thumb(g.operator) && g.who == op.recipient;
    assert e in b.prepared;
  }

  lemma FilesGrow(h: Digests, a: Acts, b: Acts, dir: PendingDir)
    requires FilesOk(h, a, dir) && Within(a, b)
    ensures FilesOk(h, b, dir)
  {
    forall name | name in dir
      ensures FileOk(h, b, name, dir[name])
    {
      FileOkGrows(h, a, b, name, dir[name]);
    }
  }

  /** A new preparation with a nonce of its own. */
  lemma PreparationRecorded(h: Digests, a: Acts, e: Preparation)
    requires ActsOk(h, a) && IsNonce(e.nonce) && forall x :: x in a.prepared ==> x.nonce != e.nonce
    ensures ActsOk(h, a.(prepared := a.prepared + {e}))
  {
    var b := a.(prepared := a.prepared + {e});
    forall g | g in b.signed
      ensures SignerOk(h, b, g)
    {
      SignerGrows(h, a, b, g);
    }
  }

  lemma SignatureRecorded(h: Digests, a: Acts, g: Signature)
    requires ActsOk(h, a) && SignerOk(h, a, g)
    ensures ActsOk(h, a.(signed := a.signed + {g}))
  {
    var b := a.(signed := a.signed + {g});
    forall x | x in b.signed
      ensures SignerOk(h, b, x)
    {
      SignerGrows(h, a, b, x);
    }
  }

  // ---- names ----------------------------------------------------------------------------------

  lemma FileNames(thumb: string)
    ensures IsSig(SigName(thumb)) && ThumbOf(SigName(thumb)) == thumb
    ensures !IsSig(ChallengeName(thumb)) && !IsSig(META_NAME)
    ensures ChallengeName(thumb) != META_NAME
  {
    assert SigName(thumb)[..|thumb|] == thumb;
    NotSig(ChallengeName(thumb));
    NotSig(META_NAME);
    assert ChallengeName(thumb)[|ChallengeName(thumb)| - 1] != META_NAME[|META_NAME| - 1];
  }

  lemma NotSig(name: string)
    requires name != "" && name[|name| - 1] != 'g'
    ensures !IsSig(name)
  {
    assert |name| >= 4 ==> name[|name| - 4..][3] == name[|name| - 1];
  }

  lemma ChallengeNameInjective(a: string, b: string)
    requires ChallengeName(a) == ChallengeName(b)
    ensures a == b
  {
    assert ChallengeName(a)[..|a|] == a;
    assert ChallengeName(b)[..|b|] == b;
  }

  // ---- single files ---------------------------------------------------------------------------

  lemma ChallengeFile(h: Digests, a: Acts, dir: PendingDir, e: Preparation, op: Operator)
    requires FilesOk(h, a, dir) && e in a.prepared && op in e.request.policy.operators
    ensures FilesOk(h, a, dir[ChallengeName(h.thumb(op.recipient)) := Age([op.recipient], MessageOf(h, MetaFor(e)))])
  {
    var name := ChallengeName(h.thumb(op.recipient));
    FileNames(h.thumb(op.recipient));
    assert IsChallenge(h, name, [op.recipient], MessageOf(h, MetaFor(e)), e, op);
  }

  lemma MetaFile(h: Digests, a: Acts, dir: PendingDir, m: Meta)
    requires FilesOk(h, a, dir) && MetaKnown(a, m)
    ensures FilesOk(h, a, dir[META_NAME := MetaJson(m)])
  {
  }

  lemma SignatureFile(h: Digests, a: Acts, dir: PendingDir, g: Signature, plain: string)
    requires FilesOk(h, a, dir) && g in a.signed && Accepted(h, plain, g.meta)
    ensures FilesOk(h, a, dir[SigName(h.thumb(g.operator)) := Age([g.meta.verifier], plain)])
  {
    FileNames(h.thumb(g.operator));
    assert IsSignature(h, SigName(h.thumb(g.operator)), [g.meta.verifier], plain, g);
  }

  lemma TornFile(h: Digests, a: Acts, dir: PendingDir, name: string, torn: bool)
    requires FilesOk(h, a, dir)
    ensures FilesOk(h, a, TornAt(dir, name, torn))
  {
  }

  lemma ClearedFiles(h: Digests, a: Acts, dir: PendingDir, left: set<string>)
    requires FilesOk(h, a, dir)
    ensures FilesOk(h, a, Cleared(dir, left))
  {
  }

  lemma LoadedMetaKnown(h: Digests, a: Acts, dir: PendingDir, m: Meta)
    requires FilesOk(h, a, dir) && LoadMeta(dir) == Ok(Some(m))
    ensures MetaKnown(a, m)
  {
    assert FileOk(h, a, META_NAME, dir[META_NAME]);
  }

  // ---- who signed -----------------------------------------------------------------------------

  lemma NonceTail(n: string)
    requires IsNonce(n)
    ensures ':' !in n && !Canonical.EndsInEol(n)
  {
    assert forall i :: 0 <= i < |n| ==> n[i] in "0123456789abcdef";
  }

  /** Two preparations whose messages agree up to trailing CR and LF are the same one. */
  lemma SamePreparation(h: Digests, prepared: set<Preparation>, plain: string, e: Preparation, e': Preparation)
    requires NoncesOk(prepared) && e in prepared && e' in prepared
    requires Accepted(h, plain, MetaFor(e)) && Accepted(h, plain, MetaFor(e'))
    ensures e == e'
  {
    var m, m' := MetaFor(e), MetaFor(e');
    NonceTail(e.nonce);
    NonceTail(e'.nonce);
    Canonical.NonceOf(m.app, m.env, m.newRecipient, h.hex(m.sha), m.nonce,
                      m'.app, m'.env, m'.newRecipient, h.hex(m'.sha), m'.nonce);
  }

  lemma OwnMessageAccepted(h: Digests, e: Preparation)
    requires IsNonce(e.nonce)
    ensures Accepted(h, MessageOf(h, MetaFor(e)), MetaFor(e))
  {
    var m := MetaFor(e);
    NonceTail(e.nonce);
    var message := MessageOf(h, m);
    assert AllIn("", "\r\n") && message == message + "";
    Canonical.AcceptsExactly(message, m.app, m.env, m.newRecipient, h.hex(m.sha), m.nonce);
  }

  /** Whoever has decrypted a challenge that carries the current message is the listed operator it
      was addressed to. */
  lemma DecryptedSigner(h: Digests, a: Acts, dir: PendingDir, operator: string, who: string, m: Meta)
    requires ActsOk(h, a) && FilesOk(h, a, dir) && MetaKnown(a, m)
    requires var plain := Decrypted(dir, ChallengeName(h.thumb(operator)), who);
      plain.Some? && Accepted(h, plain.value, m)
    ensures SignerOk(h, a, Signature(m, operator, who))
  {
    var name := ChallengeName(h.thumb(operator));
    var e :| e in a.prepared && m == MetaFor(e);
    FileNames(h.thumb(operator));
    assert FileOk(h, a, name, dir[name]);
    var e', op :| e' in a.prepared && IsChallenge(h, name, dir[name].to, dir[name].plain, e', op);
    ChallengeNameInjective(h.thumb(op.recipient), h.thumb(operator));
    OwnMessageAccepted(h, e');
    SamePreparation(h, a.prepared, dir[name].plain, e, e');
  }

  /** This operator of the snapshot decrypted the operator's own challenge and signed exactly `m`. */
  ghost predicate SignedBy(h: Digests, a: Acts, m: Meta, op: Operator) {
    exists g ::
      && g in a.signed && g.meta == m && h.thumb(g.operator) == h.thumb(op.recipient)
      && (DistinctThumbs(h, m.operators) ==> g.who == op.recipient)
      && exists owner ::
           owner in m.operators && h.thumb(owner.recipient) == h.thumb(op.recipient) && g.who == owner.recipient
  }

  lemma OwnerSigned(h: Digests, a: Acts, m: Meta, op: Operator, g: Signature, owner: Operator)
    requires g in a.signed && g.meta == m && h.thumb(g.operator) == h.thumb(op.recipient)
    requires op in m.operators && owner in m.operators
    requires h.thumb(owner.recipient) == h.thumb(g.operator) && g.who == owner.recipient
    ensures SignedBy(h, a, m, op)
  {
  }

  lemma SignedByGrows(h: Digests, a: Acts, b: Acts, m: Meta, op: Operator)
    requires SignedBy(h, a, m, op) && Within(a, b)
    ensures SignedBy(h, b, m, op)
  {
  }

  /** A signature file that verifies against recorded metadata was written by that operator for
      exactly this metadata; files left over from an earlier preparation never verify. */
  lemma CountedSigned(h: Digests, a: Acts, dir: PendingDir, who: string, m: Meta, op: Operator)
    requires ActsOk(h, a) && FilesOk(h, a, dir) && MetaKnown(a, m)
    requires op in m.operators && Signs(h, dir, who, m, SigName(h.thumb(op.recipient)))
    ensures SignedBy(h, a, m, op)
  {
    var name := SigName(h.thumb(op.recipient));
    FileNames(h.thumb(op.recipient));
    var e :| e in a.prepared && m == MetaFor(e);
    assert FileOk(h, a, name, dir[name]);
    var g :| g in a.signed && IsSignature(h, name, dir[name].to, dir[name].plain, g);
    FileNames(h.thumb(g.operator));
    assert SignerOk(h, a, g);
    var e', owner :| e' in a.prepared && g.meta == MetaFor(e') && owner in e'.request.policy.operators
      && h.thumb(owner.recipient) == h.thumb(g.operator) && g.who == owner.recipient;
    SamePreparation(h, a.prepared, dir[name].plain, e, e');
    OwnerSigned(h, a, m, op, g, owner);
  }

  /** Distinct operators of the snapshot, each of whom has signed `m`. */
  ghost predicate Vouched(h: Digests, a: Acts, m: Meta, ops: seq<Operator>) {
    NoRepeats(Thumbs(h, ops)) && forall op :: op in ops ==> op in m.operators && SignedBy(h, a, m, op)
  }

  lemma VouchedGrows(h: Digests, a: Acts, b: Acts, m: Meta, ops: seq<Operator>)
    requires Vouched(h, a, m, ops) && Within(a, b)
    ensures Vouched(h, b, m, ops)
  {
    forall op | op in ops
      ensures SignedBy(h, b, m, op)
    {
      SignedByGrows(h, a, b, m, op);
    }
  }

  /** One more entry of a directory listing, at whatever moment it is read. */
  lemma CollectOneVouched(h: Digests, a: Acts, dir: PendingDir, who: string, m: Meta, ops: seq<Operator>, name: string)
    requires ActsOk(h, a) && FilesOk(h, a, dir) && MetaKnown(a, m) && Vouched(h, a, m, ops)
    ensures Vouched(h, a, m, CollectOne(h, dir, who, m, ops, name))
  {
    if IsSig(name) {
      var found := OperatorByThumb(h, m.operators, ThumbOf(name));
      if found.Some? && Signs(h, dir, who, m, name) && ThumbOf(name) !in Thumbs(h, ops) {
        CountedSigned(h, a, dir, who, m, found.value);
        ThumbsSnoc(h, ops, found.value);
      }
    }
  }
}
