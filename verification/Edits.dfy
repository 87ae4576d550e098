/** The edits that run inside a transaction (internal/store/origins_secrets.go, rotate.go, and
    the closures of AddRecipient and RemoveRecipient in store.go). */
module Edits {
  import opened Strings
  import opened Sorting
  import opened Validate
  import opened Files
  import opened Dotenv

  /** One operation with its arguments. `generated` holds the value the generator returns for each
      key; a missing key stands for a generator failure on it. */
  datatype Op =
    | Create(key: string, value: string, origin: Origin)
    | Update(key: string, value: string, origin: Origin)
    | Set(key: string, value: string, origin: Origin)
    | SetBatch(batch: Values, origin: Origin)
    | Delete(key: string)
    | RemoveAndRotate(recipient: string, rotate: bool, randomsOnly: bool, generated: Values)
    | AddRecipient(recipient: string)
    | RemoveRecipient(recipient: string)

  /** The operations that go through rewriteEnv: no origins file, no rollback. */
  predicate RecipientOnly(op: Op) {
    op.AddRecipient? || op.RemoveRecipient?
  }

  /** Argument checks made before anything is read. */
  function CheckArgs(op: Op): Option<Error> {
    match op
    case SetBatch(batch, _) =>
      if batch == map[] then Some(EmptyBatch)
      else if exists k :: k in batch && !ValidKey(k) then Some(Error.BadKey) else None
    case RemoveAndRotate(r, _, _, _) => if ValidRecipient(r) then None else Some(BadRecipient)
    case AddRecipient(r) => if ValidRecipient(r) then None else Some(BadRecipient)
    case RemoveRecipient(r) => if ValidRecipient(r) then None else Some(BadRecipient)
    case _ => None
  }

  /** What an edit works on: the recipients of the loaded entry, the values and the origins. */
  datatype Body = Body(recipients: seq<string>, values: Values, origins: OriginMap)

  predicate Provisioned(origins: OriginMap, key: string) {
    OriginOrDefault(origins, key) == ORIGIN_PROVISION
  }

  /** Every provisioned value replaced by the generator's, everything else kept. */
  function Rotated(values: Values, origins: OriginMap, generated: Values): Outcome<Values> {
    if exists k :: k in values && Provisioned(origins, k) && k !in generated then Err(GeneratorFailed)
    else Ok(map k | k in values :: if Provisioned(origins, k) then generated[k] else values[k])
  }

  /** One origin label on every key of a batch. */
  function Stamps(batch: Values, o: Origin): (r: OriginMap)
    ensures r.Keys == batch.Keys
  {
    map k | k in batch :: o
  }

  function DropError(rs: seq<string>, r: string): Error {
    if r !in rs then RecipientMissing else LastRecipient
  }

  function Edit(op: Op, b: Body): Outcome<Body> {
    match op
    case Create(k, v, o) =>
      if !ValidKey(k) then Err(Error.BadKey)
      else if k in b.values then Err(KeyExists)
      else Ok(b.(values := b.values[k := v], origins := b.origins[k := o]))
    case Update(k, v, o) =>
      if !ValidKey(k) then Err(Error.BadKey)
      else if k !in b.values then Err(KeyMissing)
      else Ok(b.(values := b.values[k := v], origins := b.origins[k := o]))
    case Set(k, v, o) =>
      if !ValidKey(k) then Err(Error.BadKey)
      else Ok(b.(values := b.values[k := v], origins := b.origins[k := o]))
    case SetBatch(batch, o) =>
      Ok(b.(values := b.values + batch, origins := b.origins + Stamps(batch, o)))
    case Delete(k) =>
      if !ValidKey(k) then Err(Error.BadKey)
      else if k !in b.values then Err(KeyMissing)
      else Ok(b.(values := b.values - {k}, origins := b.origins - {k}))
    case RemoveAndRotate(r, rotate, _, generated) =>
      (match DropFrom(b.recipients, TrimEol(r))
       case None => Err(DropError(b.recipients, TrimEol(r)))
       case Some(rs) =>
         if !rotate then Ok(b.(recipients := rs))
         else
           match Rotated(b.values, b.origins, generated)
           case Err(e) => Err(e)
           case Ok(vs) => Ok(b.(recipients := rs, values := vs)))
    case AddRecipient(r) => Ok(b.(recipients := AddTo(b.recipients, TrimEol(r))))
    case RemoveRecipient(r) =>
      (match DropFrom(b.recipients, TrimEol(r))
       case None => Err(DropError(b.recipients, TrimEol(r)))
       case Some(rs) => Ok(b.(recipients := rs)))
  }

  /** Edits keep keys valid and recipient lists well formed. */
  lemma EditKeeps(op: Op, b: Body)
    requires CheckArgs(op).None? && ValidKeys(b.values) && ListInvariant(b.recipients)
    requires Edit(op, b).Ok?
    ensures ValidKeys(Edit(op, b).value.values)
    ensures ListInvariant(Edit(op, b).value.recipients)
  {
    match op
    case RemoveAndRotate(r, _, _, _) => DropIsExact(b.recipients, TrimEol(r));
    case RemoveRecipient(r) => DropIsExact(b.recipients, TrimEol(r));
    case AddRecipient(r) =>
      CleanedIsCleaned(r);
      AddKeepsList(b.recipients, TrimEol(r));
    case _ =>
  }

  // ---- rotation -------------------------------------------------------------------------------

  datatype Attention = Attention(key: string, origin: Origin)

  datatype RotateOutcome = RotateOutcome(rotated: seq<string>, attention: seq<Attention>)

  function AttentionKeys(a: seq<Attention>): (r: seq<string>)
    ensures |r| == |a| && forall i :: 0 <= i < |a| ==> r[i] == a[i].key
  {
    seq(|a|, i requires 0 <= i < |a| => a[i].key)
  }

  ghost function KeysBy(values: Values, origins: OriginMap, provisioned: bool): set<string> {
    set k | k in values && Provisioned(origins, k) == provisioned
  }

  ghost predicate ListsKeys(list: seq<string>, keys: set<string>) {
    StrictlySorted(list) && Elements(list) == keys
  }

  /** The report of a rotation: which keys were regenerated and which need an operator. */
  ghost predicate Reports(out: RotateOutcome, values: Values, origins: OriginMap, randomsOnly: bool) {
    && ListsKeys(out.rotated, KeysBy(values, origins, true))
    && if randomsOnly then out.attention == [] else AttentionReport(out.attention, values, origins)
  }

  ghost predicate AttentionReport(attention: seq<Attention>, values: Values, origins: OriginMap) {
    && ListsKeys(AttentionKeys(attention), KeysBy(values, origins, false))
    && forall a :: a in attention ==> a.origin == OriginOrDefault(origins, a.key)
  }

  /** What the shared backing array holds after the in-place filter: the kept recipients, then
      the stale tail of the old list. */
  function Overwritten(rs: seq<string>, r: string): seq<string> {
    Without(rs, r) + rs[|Without(rs, r)|..]
  }

  /** The in-memory namespace that the edit closures mutate. */
  class Workspace {
    var backing: array<string>  // the recipient slice, shared with the loaded manifest
    var count: nat              // how much of it is the entry's list
    var values: Values
    var origins: OriginMap

    ghost predicate Valid()
      reads this
    {
      count <= backing.Length
    }

    ghost function Contents(): Body
      reads this, backing
      requires Valid()
    {
      Body(backing[..count], values, origins)
    }

    constructor (recipients: seq<string>, values: Values, origins: OriginMap)
      ensures Valid() && fresh(backing)
      ensures Contents() == Body(recipients, values, origins) && count == backing.Length
    {
      this.backing := new string[|recipients|](i requires 0 <= i < |recipients| => recipients[i]);
      this.count := |recipients|;
      this.values := values;
      this.origins := origins;
    }

    method PutRecipients(rs: seq<string>)
      modifies this
      ensures Valid() && fresh(backing) && backing[..count] == rs
      ensures values == old(values) && origins == old(origins)
    {
      backing := new string[|rs|](i requires 0 <= i < |rs| => rs[i]);
      count := |rs|;
    }

    /** dropRecipient: filters into the array it reads, then sorts into a new list. */
    method DropRecipient(r: string) returns (e: Option<Error>)
      requires Valid() && count == backing.Length
      modifies this, backing
      ensures Valid() && (backing == old(backing) || fresh(backing))
      ensures values == old(values) && origins == old(origins)
      ensures var rs := old(backing[..count]);
        match DropFrom(rs, r)
        case None => e == Some(DropError(rs, r))
        case Some(next) => e == None && backing[..count] == next
      ensures old(backing)[..] == Overwritten(old(backing[..]), r)
    {
      ghost var rs := backing[..count];
      assert rs == backing[..];
      WithoutElements(rs, r);
      var n := FilterInPlace(backing, r);
      assert backing[..] == backing[..n] + backing[n..];
      if n == count {
        return Some(RecipientMissing);
      }
      if n == 0 {
        return Some(LastRecipient);
      }
      var next := SortedUnique(backing[..n]);
      PutRecipients(next);
      return None;
    }

    /** rotateProvisionedKeys on the namespace's maps. */
    method RotateProvisionedKeys(generated: Values, randomsOnly: bool)
      returns (r: Outcome<RotateOutcome>)
      requires Valid()
      modifies this`values, this`origins
      ensures Valid()
      ensures match Rotated(old(values), old(origins), generated)
        case Err(e) => r == Err(e)
        case Ok(vs) =>
          && r.Ok? && values == vs && origins == old(origins)
          && Reports(r.value, old(values), old(origins), randomsOnly)
    {
      VisitAllExact(values, origins, generated, randomsOnly);
      var pass := RotateLoop(values, origins, generated, randomsOnly);
      if pass.None? {
        return Err(GeneratorFailed);
      }
      values, origins := pass.value.values, pass.value.origins;
      return Ok(pass.value.out);
    }

    /** Runs the operation's closure. On an error the workspace is thrown away. */
    method Apply(op: Op) returns (r: Outcome<RotateOutcome>)
      requires Valid() && count == backing.Length && CheckArgs(op).None?
      modifies this, backing
      ensures Valid()
      ensures match Edit(op, old(Contents()))
        case Err(e) => r == Err(e)
        case Ok(b) => r.Ok? && Contents() == b
      ensures r.Ok? && op.RemoveAndRotate? && op.rotate ==>
        Reports(r.value, old(values), old(origins), op.randomsOnly)
    {
      r := Ok(RotateOutcome([], []));
      match op
      case Create(k, v, o) =>
        if !ValidKey(k) {
          return Err(Error.BadKey);
        }
        if k in values {
          return Err(KeyExists);
        }
        values, origins := values[k := v], origins[k := o];
      case Update(k, v, o) =>
        if !ValidKey(k) {
          return Err(Error.BadKey);
        }
        if k !in values {
          return Err(KeyMissing);
        }
        values, origins := values[k := v], origins[k := o];
      case Set(k, v, o) =>
        if !ValidKey(k) {
          return Err(Error.BadKey);
        }
        values, origins := values[k := v], origins[k := o];
      case SetBatch(batch, o) =>
        values, origins := PutBatch(values, origins, batch, o);
      case Delete(k) =>
        if !ValidKey(k) {
          return Err(Error.BadKey);
        }
        if k !in values {
          return Err(KeyMissing);
        }
        values, origins := values - {k}, origins - {k};
      case RemoveAndRotate(recipient, rotate, randomsOnly, generated) =>
        var e := DropRecipient(TrimEol(recipient));
        if e.Some? {
          return Err(e.value);
        }
        if rotate {
          r := RotateProvisionedKeys(generated, randomsOnly);
        }
      case AddRecipient(recipient) =>
        var next := SortedUnique(backing[..count] + [TrimEol(recipient)]);
        PutRecipients(next);
      case RemoveRecipient(recipient) =>
        var e := DropRecipient(TrimEol(recipient));
        if e.Some? {
          return Err(e.value);
        }
    }
  }

  /** The batch loop of SetSecretsWithOrigin. */
  method PutBatch(was: Values, labels: OriginMap, batch: Values, o: Origin)
    returns (values: Values, origins: OriginMap)
    ensures values == was + batch
    ensures origins == labels + Stamps(batch, o)
  {
    values, origins := was, labels;
    ghost var stamps := Stamps(batch, o);
    var keys := Sorted(batch.Keys);
    for i := 0 to |keys|
      invariant values == PutAll(was, batch, keys[..i])
      invariant origins == PutAll(labels, stamps, keys[..i])
    {
      SortedIndex(batch.Keys, i);
      PutAllStep(was, batch, keys, i);
      PutAllStep(labels, stamps, keys, i);
      values := values[keys[i] := batch[keys[i]]];
      origins := origins[keys[i] := o];
    }
    assert keys[..|keys|] == keys;
    PutAllSorted(was, batch);
    PutAllSorted(labels, stamps);
  }

  /** What the rotation loop has done after the first `i` keys. */
  ghost predicate Rotating(was: Values, labels: OriginMap, generated: Values, randomsOnly: bool,
                           done: seq<string>, values: Values, out: RotateOutcome) {
    && values == Regenerated(was, labels, generated, Elements(done))
    && (forall k :: k in done && Provisioned(labels, k) ==> k in generated)
    && out.rotated == Picked(done, labels, true)
    && out.attention == if randomsOnly then [] else AttentionOf(done, labels)
  }

  lemma RotatingStep(was: Values, labels: OriginMap, generated: Values, randomsOnly: bool,
                     done: seq<string>, values: Values, out: RotateOutcome, k: string)
    requires Rotating(was, labels, generated, randomsOnly, done, values, out) && k in was
    ensures Provisioned(labels, k) && k in generated ==>
      && labels[k := ORIGIN_PROVISION] == labels
      && Rotating(was, labels, generated, randomsOnly, done + [k], values[k := generated[k]],
                  out.(rotated := out.rotated + [k]))
    ensures !Provisioned(labels, k) ==>
      Rotating(was, labels, generated, randomsOnly, done + [k], values,
               if randomsOnly then out
               else out.(attention := out.attention + [Attention(k, OriginOrDefault(labels, k))]))
  {
    ElementsConcat(done, [k]);
    assert Elements([k]) == {k};
    PickedSnoc(done, k, labels, true);
    AttentionSnoc(done, k, labels);
    RegeneratedStep(was, labels, generated, Elements(done), k);
    if Provisioned(labels, k) {
      StampSame(labels, k);
    }
  }

  lemma RotatingEnd(was: Values, labels: OriginMap, generated: Values, randomsOnly: bool, values: Values,
                    out: RotateOutcome)
    requires Rotating(was, labels, generated, randomsOnly, Sorted(was.Keys), values, out)
    ensures Rotated(was, labels, generated) == Ok(values) && Reports(out, was, labels, randomsOnly)
  {
    var keys := Sorted(was.Keys);
    assert forall k :: k in was <==> k in Elements(keys);
    PickedList(was, labels, true);
    AttentionList(was, labels);
    RegeneratedAll(was, labels, generated);
  }

  /** The loop's variables. */
  datatype Pass = Pass(values: Values, origins: OriginMap, out: RotateOutcome)

  /** One key; None when the generator fails on it. */
  function Visit(p: Pass, k: string, generated: Values, randomsOnly: bool): Option<Pass> {
    var origin := OriginOrDefault(p.origins, k);
    if origin == ORIGIN_PROVISION then
      if k !in generated then None
      else Some(Pass(p.values[k := generated[k]], p.origins[k := ORIGIN_PROVISION],
                     p.out.(rotated := p.out.rotated + [k])))
    else if randomsOnly then Some(p)
    else Some(p.(out := p.out.(attention := p.out.attention + [Attention(k, origin)])))
  }

  function VisitAll(p: Pass, keys: seq<string>, generated: Values, randomsOnly: bool): Option<Pass> {
    if keys == [] then Some(p)
    else
      match VisitAll(p, keys[..|keys| - 1], generated, randomsOnly)
      case None => None
      case Some(q) => Visit(q, keys[|keys| - 1], generated, randomsOnly)
  }

  lemma {:induction false} VisitNothing(p: Pass, keys: seq<string>, i: nat, generated: Values, randomsOnly: bool)
    requires i <= |keys| && VisitAll(p, keys[..i], generated, randomsOnly).None?
    ensures VisitAll(p, keys, generated, randomsOnly).None?
    decreases |keys| - i
  {
    if i == |keys| {
      assert keys[..i] == keys;
    } else {
      assert keys[..i + 1][..i] == keys[..i];
      VisitNothing(p, keys, i + 1, generated, randomsOnly);
    }
  }

  const NO_REPORT := RotateOutcome([], [])

  lemma {:induction false} VisitAllRotates(was: Values, labels: OriginMap, generated: Values, randomsOnly: bool,
                                           keys: seq<string>)
    requires forall k :: k in keys ==> k in was
    ensures match VisitAll(Pass(was, labels, NO_REPORT), keys, generated, randomsOnly)
      case None => exists k :: k in keys && Provisioned(labels, k) && k !in generated
      case Some(p) => p.origins == labels && Rotating(was, labels, generated, randomsOnly, keys, p.values, p.out)
  {
    if keys == [] {
      RegeneratedNone(was, labels, generated);
      assert Elements(keys) == {};
    } else {
      var n := |keys| - 1;
      var k := keys[n];
      assert keys == keys[..n] + [k];
      VisitAllRotates(was, labels, generated, randomsOnly, keys[..n]);
      var before := VisitAll(Pass(was, labels, NO_REPORT), keys[..n], generated, randomsOnly);
      if before.Some? {
        RotatingStep(was, labels, generated, randomsOnly, keys[..n], before.value.values, before.value.out, k);
      }
    }
  }

  /** The whole pass: it fails exactly when the rotation does, and otherwise leaves the rotated
      values, the same effective origins and a correct report. */
  lemma VisitAllExact(was: Values, labels: OriginMap, generated: Values, randomsOnly: bool)
    ensures match VisitAll(Pass(was, labels, NO_REPORT), Sorted(was.Keys), generated, randomsOnly)
      case None => Rotated(was, labels, generated) == Err(GeneratorFailed)
      case Some(p) =>
        && Rotated(was, labels, generated) == Ok(p.values) && p.origins == labels
        && Reports(p.out, was, labels, randomsOnly)
  {
    var keys := Sorted(was.Keys);
    assert forall k :: k in keys ==> k in Elements(keys);
    VisitAllRotates(was, labels, generated, randomsOnly, keys);
    var p := VisitAll(Pass(was, labels, NO_REPORT), keys, generated, randomsOnly);
    if p.Some? {
      RotatingEnd(was, labels, generated, randomsOnly, p.value.values, p.value.out);
    }
  }

  /** The rotation loop: one pass over the sorted keys, updating the two maps it was given. */
  method RotateLoop(was: Values, labels: OriginMap, generated: Values, randomsOnly: bool) returns (r: Option<Pass>)
    ensures r == VisitAll(Pass(was, labels, NO_REPORT), Sorted(was.Keys), generated, randomsOnly)
  {
    var values, origins, out := was, labels, NO_REPORT;
    var keys := Sorted(values.Keys);
    for i := 0 to |keys|
      invariant VisitAll(Pass(was, labels, NO_REPORT), keys[..i], generated, randomsOnly) == Some(Pass(values, origins, out))
    {
      var k := keys[i];
      assert keys[..i + 1][..i] == keys[..i];
      var origin := OriginOrDefault(origins, k);
      if origin == ORIGIN_PROVISION {
        if k !in generated {
          VisitNothing(Pass(was, labels, NO_REPORT), keys, i + 1, generated, randomsOnly);
          return None;
        }
        values := values[k := generated[k]];
        origins := origins[k := ORIGIN_PROVISION];
        out := out.(rotated := out.rotated + [k]);
        continue;
      }
      if randomsOnly {
        continue;
      }
      out := out.(attention := out.attention + [Attention(k, origin)]);
    }
    assert keys[..|keys|] == keys;
    return Some(Pass(values, origins, out));
  }

  /** `was` after the assignments of a loop over `keys`. */
  ghost function PutAll(was: map<string, string>, batch: map<string, string>, keys: seq<string>): map<string, string> {
    if keys == [] then was
    else
      var k := keys[|keys| - 1];
      var m := PutAll(was, batch, keys[..|keys| - 1]);
      if k in batch then m[k := batch[k]] else m
  }

  lemma {:induction false} PutAllAt(was: map<string, string>, batch: map<string, string>, keys: seq<string>, k: string)
    ensures var m := PutAll(was, batch, keys);
      if k in keys && k in batch then k in m && m[k] == batch[k]
      else (k in m <==> k in was) && (k in was ==> m[k] == was[k])
  {
    if keys != [] {
      var n := |keys| - 1;
      PutAllAt(was, batch, keys[..n], k);
      assert keys == keys[..n] + [keys[n]];
    }
  }

  lemma PutAllStep(was: map<string, string>, batch: map<string, string>, keys: seq<string>, i: nat)
    requires i < |keys| && keys[i] in batch
    ensures PutAll(was, batch, keys[..i + 1]) == PutAll(was, batch, keys[..i])[keys[i] := batch[keys[i]]]
  {
    assert keys[..i + 1][..i] == keys[..i];
  }

  lemma PutAllSorted(was: map<string, string>, batch: map<string, string>)
    ensures PutAll(was, batch, Sorted(batch.Keys)) == was + batch
  {
    var keys := Sorted(batch.Keys);
    forall k
      ensures var m := PutAll(was, batch, keys);
        (k in m <==> k in was + batch) && (k in m ==> m[k] == (was + batch)[k])
    {
      assert k in keys <==> k in Elements(keys);
      PutAllAt(was, batch, keys, k);
    }
  }

  /** The values after the provisioned keys of `done` have been regenerated. */
  ghost function Regenerated(values: Values, origins: OriginMap, generated: Values, done: set<string>): Values {
    map k | k in values ::
      if k in done && k in generated && Provisioned(origins, k) then generated[k] else values[k]
  }

  lemma RegeneratedNone(values: Values, origins: OriginMap, generated: Values)
    ensures Regenerated(values, origins, generated, {}) == values
  {
  }

  lemma RegeneratedStep(values: Values, origins: OriginMap, generated: Values, done: set<string>, k: string)
    requires k in values
    ensures Provisioned(origins, k) && k in generated ==>
      Regenerated(values, origins, generated, done + {k})
      == Regenerated(values, origins, generated, done)[k := generated[k]]
    ensures !Provisioned(origins, k) ==>
      Regenerated(values, origins, generated, done + {k}) == Regenerated(values, origins, generated, done)
  {
  }

  lemma RegeneratedAll(values: Values, origins: OriginMap, generated: Values)
    requires forall k :: k in values && Provisioned(origins, k) ==> k in generated
    ensures Rotated(values, origins, generated) == Ok(Regenerated(values, origins, generated, values.Keys))
  {
    assert Rotated(values, origins, generated).value == Regenerated(values, origins, generated, values.Keys);
  }

  /** The keys of `keys` whose origin is, or is not, "provision". */
  function Picked(keys: seq<string>, origins: OriginMap, provisioned: bool): seq<string> {
    if keys == [] then []
    else
      (if Provisioned(origins, keys[0]) == provisioned then [keys[0]] else [])
      + Picked(keys[1..], origins, provisioned)
  }

  lemma {:induction false} PickedSnoc(keys: seq<string>, k: string, origins: OriginMap, provisioned: bool)
    ensures Picked(keys + [k], origins, provisioned)
         == Picked(keys, origins, provisioned) + if Provisioned(origins, k) == provisioned then [k] else []
  {
    if keys == [] {
      assert [] + [k] == [k];
      assert [k][1..] == [];
    } else {
      assert (keys + [k])[1..] == keys[1..] + [k];
      PickedSnoc(keys[1..], k, origins, provisioned);
    }
  }

  lemma {:induction false} PickedShape(keys: seq<string>, origins: OriginMap, provisioned: bool)
    requires StrictlySorted(keys)
    ensures StrictlySorted(Picked(keys, origins, provisioned))
    ensures forall k :: k in Picked(keys, origins, provisioned) <==>
      k in keys && Provisioned(origins, k) == provisioned
  {
    if keys != [] {
      PickedShape(keys[1..], origins, provisioned);
      assert keys == [keys[0]] + keys[1..];
      var rest := Picked(keys[1..], origins, provisioned);
      forall j | 0 <= j < |rest|
        ensures Less(keys[0], rest[j])
      {
        assert rest[j] in keys[1..];
        var i :| 0 <= i < |keys[1..]| && keys[1..][i] == rest[j];
        assert keys[i + 1] == rest[j];
      }
    }
  }

  lemma StampSame(origins: OriginMap, k: string)
    requires Provisioned(origins, k)
    ensures origins[k := ORIGIN_PROVISION] == origins
  {
  }

  function AttentionOf(keys: seq<string>, origins: OriginMap): seq<Attention> {
    if keys == [] then []
    else
      (if Provisioned(origins, keys[0]) then [] else [Attention(keys[0], OriginOrDefault(origins, keys[0]))])
      + AttentionOf(keys[1..], origins)
  }

  lemma {:induction false} AttentionSnoc(keys: seq<string>, k: string, origins: OriginMap)
    ensures AttentionOf(keys + [k], origins) == AttentionOf(keys, origins)
      + if Provisioned(origins, k) then [] else [Attention(k, OriginOrDefault(origins, k))]
  {
    if keys == [] {
      assert [] + [k] == [k];
      assert [k][1..] == [];
    } else {
      assert (keys + [k])[1..] == keys[1..] + [k];
      AttentionSnoc(keys[1..], k, origins);
    }
  }

  lemma {:induction false} AttentionShape(keys: seq<string>, origins: OriginMap)
    ensures AttentionKeys(AttentionOf(keys, origins)) == Picked(keys, origins, false)
    ensures forall a :: a in AttentionOf(keys, origins) ==> a.origin == OriginOrDefault(origins, a.key)
  {
    if keys != [] {
      AttentionShape(keys[1..], origins);
      var rest := AttentionOf(keys[1..], origins);
      var all := AttentionOf(keys, origins);
      if !Provisioned(origins, keys[0]) {
        assert AttentionKeys(all) == [keys[0]] + AttentionKeys(rest);
      }
    }
  }

  lemma {:induction false} PickedList(values: Values, origins: OriginMap, provisioned: bool)
    ensures ListsKeys(Picked(Sorted(values.Keys), origins, provisioned), KeysBy(values, origins, provisioned))
  {
    var keys := Sorted(values.Keys);
    PickedShape(keys, origins, provisioned);
    forall k
      ensures k in Elements(Picked(keys, origins, provisioned)) <==> k in KeysBy(values, origins, provisioned)
    {
      assert k in keys <==> k in Elements(keys);
    }
  }

  lemma AttentionList(values: Values, origins: OriginMap)
    ensures AttentionReport(AttentionOf(Sorted(values.Keys), origins), values, origins)
  {
    PickedList(values, origins, false);
    AttentionShape(Sorted(values.Keys), origins);
  }

  /** Without randoms-only the two lists are disjoint and together are exactly the keys. */
  lemma ReportsPartition(out: RotateOutcome, values: Values, origins: OriginMap)
    requires Reports(out, values, origins, false)
    ensures Elements(out.rotated) !! Elements(AttentionKeys(out.attention))
    ensures Elements(out.rotated) + Elements(AttentionKeys(out.attention)) == values.Keys
  {
  }

  /** Rotation touches only provisioned values and no effective origin, and the randoms-only
      flag never reaches the committed state. */
  lemma RotationEffect(r: string, randomsOnly: bool, generated: Values, b: Body)
    ensures var out := Edit(RemoveAndRotate(r, true, randomsOnly, generated), b);
      && out == Edit(RemoveAndRotate(r, true, !randomsOnly, generated), b)
      && (out.Ok? ==>
            && out.value.values.Keys == b.values.Keys && out.value.origins == b.origins
            && forall k :: k in b.values ==>
                 out.value.values[k] == if Provisioned(b.origins, k) then generated[k] else b.values[k])
      && ((exists k :: k in b.values && Provisioned(b.origins, k) && k !in generated) ==> out.Err?)
  {
  }
}
