/** What one Verify decides. */
module QuorumLaws {
  import opened Strings
  import opened Sorting
  import opened Quorum

  // ---- who is counted -------------------------------------------------------------------------

  ghost predicate DistinctThumbs(h: Digests, ops: seq<Operator>) {
    forall a, b :: a in ops && b in ops && h.thumb(a.recipient) == h.thumb(b.recipient) ==> a == b
  }

  ghost predicate NoRepeats(s: seq<string>) {
    forall i, j :: 0 <= i < j < |s| ==> s[i] != s[j]
  }

  /** The operators whose signature file holds the current message: stated without any loop. */
  ghost function Signers(h: Digests, dir: PendingDir, who: string, m: Meta): set<Operator> {
    set op | op in m.operators && Signs(h, dir, who, m, SigName(h.thumb(op.recipient)))
  }

  ghost function OperatorSet(ops: seq<Operator>): set<Operator> {
    set op | op in ops
  }

  /** Every operator counted so far comes from one of the files read so far, and no thumbprint is
      counted twice. */
  lemma {:induction false} CollectedSound(h: Digests, dir: PendingDir, who: string, m: Meta, names: seq<string>)
    ensures var out := Collected(h, dir, who, m, names);
      && NoRepeats(Thumbs(h, out))
      && forall op :: op in out ==>
           op in m.operators && Signs(h, dir, who, m, SigName(h.thumb(op.recipient)))
  {
    if names != [] {
      var n := |names| - 1;
      var before := Collected(h, dir, who, m, names[..n]);
      CollectedSound(h, dir, who, m, names[..n]);
      if IsSig(names[n]) {
        var found := OperatorByThumb(h, m.operators, ThumbOf(names[n]));
        if found.Some? {
          ThumbsSnoc(h, before, found.value);
        }
      }
    }
  }

  /** No valid signature file is passed over. */
  lemma {:induction false} CollectedComplete(
    h: Digests, dir: PendingDir, who: string, m: Meta, names: seq<string>, op: Operator)
    requires op in m.operators && Signs(h, dir, who, m, SigName(h.thumb(op.recipient)))
    requires SigName(h.thumb(op.recipient)) in names
    ensures h.thumb(op.recipient) in Thumbs(h, Collected(h, dir, who, m, names))
  {
    var n := |names| - 1;
    var thumb := h.thumb(op.recipient);
    var before := Collected(h, dir, who, m, names[..n]);
    if names[n] == SigName(thumb) {
      assert ThumbOf(names[n]) == thumb by {
        assert SigName(ThumbOf(names[n])) == SigName(thumb);
        assert SigName(thumb)[..|thumb|] == thumb;
      }
      var found := OperatorByThumb(h, m.operators, thumb);
      ThumbsSnoc(h, before, found.value);
    } else {
      assert names == names[..n] + [names[n]];
      CollectedComplete(h, dir, who, m, names[..n], op);
      if IsSig(names[n]) {
        var found := OperatorByThumb(h, m.operators, ThumbOf(names[n]));
        if found.Some? {
          ThumbsSnoc(h, before, found.value);
        }
      }
    }
  }

  lemma {:induction false} DistinctCount(h: Digests, ops: seq<Operator>)
    requires NoRepeats(Thumbs(h, ops))
    ensures |OperatorSet(ops)| == |ops|
  {
    if ops == [] {
      assert OperatorSet(ops) == {};
    } else {
      var n := |ops| - 1;
      var last := ops[n];
      assert ops == ops[..n] + [last];
      ThumbsSnoc(h, ops[..n], last);
      assert forall i :: 0 <= i < n ==> Thumbs(h, ops)[i] == Thumbs(h, ops[..n])[i];
      DistinctCount(h, ops[..n]);
      forall i | 0 <= i < n
        ensures ops[i] != last
      {
        assert Thumbs(h, ops)[i] != Thumbs(h, ops)[n];
      }
      SnocSet(ops[..n], last);
      assert last !in OperatorSet(ops[..n]);
    }
  }

  lemma SnocSet(ops: seq<Operator>, op: Operator)
    ensures OperatorSet(ops + [op]) == OperatorSet(ops) + {op}
  {
  }

  /** The walk over the directory counts each signer exactly once, whatever else is in it. */
  lemma CollectedIsSigners(h: Digests, dir: PendingDir, who: string, m: Meta)
    requires DistinctThumbs(h, m.operators)
    ensures var out := Collected(h, dir, who, m, Sorted(dir.Keys));
      OperatorSet(out) == Signers(h, dir, who, m) && |out| == |Signers(h, dir, who, m)|
  {
    var names := Sorted(dir.Keys);
    var out := Collected(h, dir, who, m, names);
    CollectedSound(h, dir, who, m, names);
    DistinctCount(h, out);
    forall op | op in Signers(h, dir, who, m)
      ensures op in out
    {
      var name := SigName(h.thumb(op.recipient));
      assert name in dir.Keys;
      assert name in Elements(names);
      CollectedComplete(h, dir, who, m, names, op);
      var i :| 0 <= i < |out| && Thumbs(h, out)[i] == h.thumb(op.recipient);
      assert out[i] in m.operators;
    }
  }

  // ---- who is missing -------------------------------------------------------------------------

  lemma {:induction false} MissingExact(all: seq<Operator>, present: seq<Operator>, x: string)
    ensures x in MissingNames(all, present) <==> x in Names(all) && x !in Names(present)
  {
    if all != [] {
      var n := |all| - 1;
      MissingExact(all[..n], present, x);
      assert all == all[..n] + [all[n]];
      NamesSnoc(all[..n], all[n]);
    }
  }

  lemma {:induction false} NameCount(ops: seq<Operator>)
    requires UniqueNames(ops)
    ensures |Elements(Names(ops))| == |ops|
  {
    if ops == [] {
      assert Elements(Names(ops)) == {};
    } else {
      var n := |ops| - 1;
      NameCount(ops[..n]);
      assert ops == ops[..n] + [ops[n]];
      NamesSnoc(ops[..n], ops[n]);
      assert Elements(Names(ops)) == Elements(Names(ops[..n])) + {ops[n].name};
      assert ops[n].name !in Names(ops[..n]);
    }
  }

  lemma {:induction false} FewNames(s: seq<string>)
    ensures |Elements(s)| <= |s|
  {
    if s == [] {
      assert Elements(s) == {};
    } else {
      var n := |s| - 1;
      FewNames(s[..n]);
      assert s == s[..n] + [s[n]];
      assert Elements(s) == Elements(s[..n]) + {s[n]};
    }
  }

  /** Fewer operators than the policy lists leave somebody missing. */
  lemma SomebodyMissing(all: seq<Operator>, present: seq<Operator>)
    requires UniqueNames(all) && |present| < |all|
    ensures MissingNames(all, present) != []
  {
    NameCount(all);
    FewNames(Names(present));
    if MissingNames(all, present) == [] {
      forall x | x in Elements(Names(all))
        ensures x in Elements(Names(present))
      {
        MissingExact(all, present, x);
      }
      SubsetSize(Elements(Names(all)), Elements(Names(present)));
    }
  }

  lemma {:induction false} SubsetSize(a: set<string>, b: set<string>)
    requires a <= b
    ensures |a| <= |b|
  {
    if a != {} {
      var x :| x in a;
      SubsetSize(a - {x}, b - {x});
    }
  }

  // ---- what prepare writes --------------------------------------------------------------------

  ghost predicate WrittenFor(h: Digests, dir: PendingDir, ops: seq<Operator>, message: string, name: string,
                             file: PendingFile) {
    || (name in dir && file == dir[name])
    || exists op :: op in ops && name == ChallengeName(h.thumb(op.recipient)) && file == Age([op.recipient], message)
  }

  lemma {:induction false} ChallengesWrite(h: Digests, dir: PendingDir, ops: seq<Operator>, message: string,
                                           name: string)
    requires name in Challenges(h, dir, ops, message)
    ensures WrittenFor(h, dir, ops, message, name, Challenges(h, dir, ops, message)[name])
  {
    if ops != [] {
      var n := |ops| - 1;
      if name == ChallengeName(h.thumb(ops[n].recipient)) {
        assert ops[n] in ops;
      } else {
        ChallengesWrite(h, dir, ops[..n], message, name);
        assert forall op :: op in ops[..n] ==> op in ops;
      }
    }
  }

  /** Whatever fails, PrepareAdd writes only challenges of its own message, each addressed to one
      operator, possibly torn, and at last its own metadata. */
  lemma PrepareWrites(h: Digests, dir: PendingDir, q: PrepareRequest, nonce: string, f: PrepareFault, name: string)
    requires name in PrepareRun(h, dir, q, nonce, f).0
    ensures var file := PrepareRun(h, dir, q, nonce, f).0[name];
      || WrittenFor(h, dir, q.policy.operators, MessageOf(h, MetaOf(q, nonce)), name, file)
      || file == Torn
      || (name == META_NAME && file == MetaJson(MetaOf(q, nonce)))
  {
    var ops, message := q.policy.operators, MessageOf(h, MetaOf(q, nonce));
    var done := if (f.EncryptFails? || f.WriteFails?) && f.at < |ops| then ops[..f.at] else ops;
    if name in Challenges(h, dir, done, message) {
      ChallengesWrite(h, dir, done, message, name);
      assert forall op :: op in done ==> op in ops;
    }
  }

  // ---- clearing -------------------------------------------------------------------------------

  /** Once a removal has reached meta.json, whatever else it left behind, nothing can be verified
      and nothing can be signed; and it never changes a file that it leaves. */
  lemma ClearedForgets(h: Digests, dir: PendingDir, left: set<string>)
    requires META_NAME !in left
    ensures forall who, q :: Verified(h, Cleared(dir, left), who, q) == Err(NoPending)
    ensures forall who, q: SignRequest :: q.operator != "" && q.newRecipient != "" ==>
      Signable(h, Cleared(dir, left), q, who) == Err(NoPending)
    ensures forall name :: name in Cleared(dir, left) ==> name in dir && Cleared(dir, left)[name] == dir[name]
  {
    assert LoadMeta(Cleared(dir, left)) == Ok(None);
  }

  // ---- the decision ---------------------------------------------------------------------------

  /** With matching metadata and a valid policy snapshot whose thumbprints do not collide, Verify
      succeeds exactly when at least M distinct operators have a valid signature file. It then
      reports precisely them. When it falls short it names, in policy order, precisely the
      operators not counted, and there is at least one. */
  lemma VerifyDecides(h: Digests, dir: PendingDir, who: string, q: VerifyRequest, m: Meta)
    requires LoadMeta(dir) == Ok(Some(m)) && MetaMatches(m, q).None?
    requires ValidPolicy(Policy(m.m, m.operators)) && DistinctThumbs(h, m.operators)
    ensures Verified(h, dir, who, q).Ok? <==> |Signers(h, dir, who, m)| >= q.policy.m
    ensures Verified(h, dir, who, q).Ok? ==>
      && Elements(Verified(h, dir, who, q).value.names) == (set op | op in Signers(h, dir, who, m) :: op.name)
      && Elements(Verified(h, dir, who, q).value.thumbs)
           == (set op | op in Signers(h, dir, who, m) :: h.thumb(op.recipient))
      && NoRepeats(Verified(h, dir, who, q).value.thumbs)
    ensures Verified(h, dir, who, q).Err? ==>
      exists missing: seq<string> ::
        && missing != []
        && Verified(h, dir, who, q).error == Short(|Signers(h, dir, who, m)|, m.m, Join(missing, " or "))
        && forall x :: x in missing <==>
             x in Names(m.operators) && forall op :: op in Signers(h, dir, who, m) ==> op.name != x
  {
    var out := Collected(h, dir, who, m, Sorted(dir.Keys));
    CollectedIsSigners(h, dir, who, m);
    CollectedSound(h, dir, who, m, Sorted(dir.Keys));
    if |out| < m.m {
      SomebodyMissing(m.operators, out);
      MissingSigners(m.operators, out);
      assert Verified(h, dir, who, q).error == Short(|out|, m.m, Join(MissingNames(m.operators, out), " or "));
    } else {
      NamesOfSet(h, out);
    }
  }

  lemma MissingSigners(all: seq<Operator>, out: seq<Operator>)
    ensures forall x :: x in MissingNames(all, out) <==>
      x in Names(all) && forall op :: op in OperatorSet(out) ==> op.name != x
  {
    forall x
      ensures x in MissingNames(all, out) <==>
        x in Names(all) && forall op :: op in OperatorSet(out) ==> op.name != x
    {
      MissingExact(all, out, x);
      NamedBy(out, x);
    }
  }

  lemma NamedBy(ops: seq<Operator>, x: string)
    ensures x in Names(ops) <==> exists op :: op in ops && op.name == x
  {
    if x in Names(ops) {
      var i :| 0 <= i < |ops| && Names(ops)[i] == x;
      assert ops[i] in ops && ops[i].name == x;
    }
    if exists op :: op in ops && op.name == x {
      var op :| op in ops && op.name == x;
      var i :| 0 <= i < |ops| && ops[i] == op;
      assert Names(ops)[i] == x;
    }
  }

  lemma NamesOfSet(h: Digests, ops: seq<Operator>)
    ensures Elements(Names(ops)) == (set op | op in OperatorSet(ops) :: op.name)
    ensures Elements(Thumbs(h, ops)) == (set op | op in OperatorSet(ops) :: h.thumb(op.recipient))
  {
    forall x
      ensures x in Elements(Names(ops)) <==> x in (set op | op in OperatorSet(ops) :: op.name)
    {
      NamedBy(ops, x);
    }
    forall t
      ensures t in Elements(Thumbs(h, ops)) <==> t in (set op | op in OperatorSet(ops) :: h.thumb(op.recipient))
    {
      if t in Thumbs(h, ops) {
        var i :| 0 <= i < |ops| && Thumbs(h, ops)[i] == t;
        assert ops[i] in OperatorSet(ops);
      }
      if op :| op in OperatorSet(ops) && h.thumb(op.recipient) == t {
        var i :| 0 <= i < |ops| && ops[i] == op;
        assert Thumbs(h, ops)[i] == t;
      }
    }
  }
}
