/** Prepare, sign and verify over the pending directory (internal/quorum).

    Encryption is symbolic: a file decrypts exactly for the recipients it was addressed to. The
    thumbprint of a recipient and the hex text of a bundle hash are functions the module does not
    look into. Randomness and failing writes are arguments. */
module Quorum {
  import opened Strings
  import opened Sorting
  import Files
  import Canonical

  datatype Operator = Operator(name: string, recipient: string)

  datatype Policy = Policy(m: int, operators: seq<Operator>)

  /** meta.json. */
  datatype Meta = Meta(
    version: int, app: string, env: string, newRecipient: string, sha: Files.Sha, nonce: string,
    verifier: string, operators: seq<Operator>, m: int)

  /** `Torn` is a file whose write was cut short; it neither decodes nor decrypts. */
  datatype PendingFile = MetaJson(meta: Meta) | Age(to: seq<string>, plain: string) | Torn | Folder

  type PendingDir = map<string, PendingFile>

  datatype Digests = Digests(thumb: string -> string, hex: Files.Sha -> string)

  datatype QError =
    | EmptyInput | OperatorIsNew | IoFailed
    | NoPending | BadMeta | OtherRecipient | OtherNamespace | StaleSha | PolicyChanged
    | NotAnOperator | ChallengeMissing | ChallengeLocked | Mismatch
    | Short(have: nat, need: int, missing: string)

  const META_NAME := "meta.json"

  function ChallengeName(thumb: string): string { thumb + ".challenge" }

  function SigName(thumb: string): string { thumb + ".sig" }

  // ---- the policy -----------------------------------------------------------------------------

  predicate UniqueNames(ops: seq<Operator>) {
    forall i, j :: 0 <= i < j < |ops| ==> ops[i].name != ops[j].name
  }

  predicate UniqueRecipients(ops: seq<Operator>) {
    forall i, j :: 0 <= i < j < |ops| ==> ops[i].recipient != ops[j].recipient
  }

  predicate ValidPolicy(p: Policy) {
    && 1 <= p.m <= |p.operators|
    && (forall i :: 0 <= i < |p.operators| ==> p.operators[i].name != "" && p.operators[i].recipient != "")
    && UniqueNames(p.operators) && UniqueRecipients(p.operators)
  }

  method ValidatePolicy(p: Policy) returns (ok: bool)
    ensures ok <==> ValidPolicy(p)
  {
    var ops := p.operators;
    if |ops| == 0 || p.m < 1 || p.m > |ops| {
      return false;
    }
    var seenName: set<string>, seenRec: set<string> := {}, {};
    for i := 0 to |ops|
      invariant seenName == set j | 0 <= j < i :: ops[j].name
      invariant seenRec == set j | 0 <= j < i :: ops[j].recipient
      invariant forall j :: 0 <= j < i ==> ops[j].name != "" && ops[j].recipient != ""
      invariant forall j, k :: 0 <= j < k < i ==> ops[j].name != ops[k].name && ops[j].recipient != ops[k].recipient
    {
      if ops[i].name == "" || ops[i].recipient == "" || ops[i].name in seenName || ops[i].recipient in seenRec {
        return false;
      }
      seenName, seenRec := seenName + {ops[i].name}, seenRec + {ops[i].recipient};
    }
    return true;
  }

  /** Policy.FindByRecipient. */
  function FindByRecipient(ops: seq<Operator>, recipient: string): (r: Option<Operator>)
    ensures r.Some? ==> r.value in ops && r.value.recipient == TrimSpace(recipient)
    ensures r.None? ==> forall op :: op in ops ==> op.recipient != TrimSpace(recipient)
  {
    if ops == [] then None
    else if ops[0].recipient == TrimSpace(recipient) then Some(ops[0])
    else FindByRecipient(ops[1..], recipient)
  }

  // ---- shared lookups -------------------------------------------------------------------------

  function LoadMeta(dir: PendingDir): Result<Option<Meta>, QError> {
    if META_NAME !in dir then Ok(None)
    else if dir[META_NAME].MetaJson? && dir[META_NAME].meta.version == 1 then Ok(Some(dir[META_NAME].meta))
    else Err(BadMeta)
  }

  function OperatorByThumb(h: Digests, ops: seq<Operator>, thumb: string): (r: Option<Operator>)
    ensures r.Some? ==> r.value in ops && h.thumb(r.value.recipient) == thumb
    ensures r.None? ==> forall op :: op in ops ==> h.thumb(op.recipient) != thumb
  {
    if ops == [] then None
    else if h.thumb(ops[0].recipient) == thumb then Some(ops[0])
    else OperatorByThumb(h, ops[1..], thumb)
  }

  function Decrypted(dir: PendingDir, name: string, who: string): Option<string> {
    if name in dir && dir[name].Age? && who in dir[name].to then Some(dir[name].plain) else None
  }

  function MessageOf(h: Digests, m: Meta): string {
    Canonical.Message(m.app, m.env, m.newRecipient, h.hex(m.sha), m.nonce)
  }

  predicate Accepted(h: Digests, plain: string, m: Meta) {
    Canonical.Accepts(plain, m.app, m.env, m.newRecipient, h.hex(m.sha), m.nonce)
  }

  // ---- prepare --------------------------------------------------------------------------------

  datatype PrepareRequest = PrepareRequest(
    app: string, env: string, newRecipient: string, sha: Files.Sha, policy: Policy, verifier: string)

  /** Where one PrepareAdd fails: before any write, at one operator, or at meta.json. A challenge
      write is not atomic and may leave a torn file. */
  datatype PrepareFault =
    | NoFault | SetupFails | EncryptFails(at: nat) | WriteFails(at: nat, torn: bool) | MetaFails

  function PrepareCheck(q: PrepareRequest): Option<QError> {
    if q.app == "" || q.env == "" || q.newRecipient == "" || q.sha == Files.NoSha || q.verifier == ""
       || q.policy.operators == [] then Some(EmptyInput)
    else if exists op :: op in q.policy.operators && op.recipient == q.newRecipient then Some(OperatorIsNew)
    else None
  }

  function MetaOf(q: PrepareRequest, nonce: string): Meta {
    Meta(1, q.app, q.env, q.newRecipient, q.sha, nonce, q.verifier, q.policy.operators, q.policy.m)
  }

  /** The directory with one challenge per operator written over it. */
  function Challenges(h: Digests, dir: PendingDir, ops: seq<Operator>, message: string): PendingDir {
    if ops == [] then dir
    else
      var n := |ops| - 1;
      var op := ops[n];
      Challenges(h, dir, ops[..n], message)[ChallengeName(h.thumb(op.recipient)) := Age([op.recipient], message)]
  }

  function TornAt(dir: PendingDir, name: string, torn: bool): PendingDir {
    if torn then dir[name := Torn] else dir
  }

  function PrepareRun(h: Digests, dir: PendingDir, q: PrepareRequest, nonce: string, f: PrepareFault)
    : (PendingDir, Option<QError>)
  {
    var ops, message := q.policy.operators, MessageOf(h, MetaOf(q, nonce));
    if PrepareCheck(q).Some? then (dir, PrepareCheck(q))
    else if f.SetupFails? then (dir, Some(IoFailed))
    else if f.EncryptFails? && f.at < |ops| then (Challenges(h, dir, ops[..f.at], message), Some(IoFailed))
    else if f.WriteFails? && f.at < |ops| then
      (TornAt(Challenges(h, dir, ops[..f.at], message), ChallengeName(h.thumb(ops[f.at].recipient)), f.torn),
       Some(IoFailed))
    else if f.MetaFails? then (Challenges(h, dir, ops, message), Some(IoFailed))
    else (Challenges(h, dir, ops, message)[META_NAME := MetaJson(MetaOf(q, nonce))], None)
  }

  // ---- sign -----------------------------------------------------------------------------------

  datatype SignRequest = SignRequest(app: string, env: string, newRecipient: string, operator: string)

  datatype SignFault = SignOk | SignEncryptFails | SignWriteFails(torn: bool)

  function SignMatches(m: Meta, q: SignRequest): Option<QError> {
    if m.newRecipient != q.newRecipient then Some(OtherRecipient)
    else if m.app != q.app || m.env != q.env then Some(OtherNamespace)
    else None
  }

  /** The meta and the challenge text an operator is allowed to sign. */
  function Signable(h: Digests, dir: PendingDir, q: SignRequest, who: string): Result<(Meta, string), QError> {
    if q.operator == "" || q.newRecipient == "" then Err(EmptyInput)
    else
      match LoadMeta(dir)
      case Err(e) => Err(e)
      case Ok(None) => Err(NoPending)
      case Ok(Some(m)) =>
        var challenge := ChallengeName(h.thumb(q.operator));
        if SignMatches(m, q).Some? then Err(SignMatches(m, q).value)
        else if OperatorByThumb(h, m.operators, h.thumb(q.operator)).None? then Err(NotAnOperator)
        else if challenge !in dir then Err(ChallengeMissing)
        else
          match Decrypted(dir, challenge, who)
          case None => Err(ChallengeLocked)
          case Some(plain) => if Accepted(h, plain, m) then Ok((m, plain)) else Err(Mismatch)
  }

  function SignRun(h: Digests, dir: PendingDir, q: SignRequest, who: string, f: SignFault): (PendingDir,
                   Option<QError>) {
    var name := SigName(h.thumb(q.operator));
    match Signable(h, dir, q, who)
    case Err(e) => (dir, Some(e))
    case Ok((m, plain)) =>
      match f
      case SignEncryptFails => (dir, Some(IoFailed))
      case SignWriteFails(torn) => (TornAt(dir, name, torn), Some(IoFailed))
      case SignOk => (dir[name := Age([m.verifier], plain)], None)
  }

  // ---- verify ---------------------------------------------------------------------------------

  datatype VerifyRequest = VerifyRequest(
    app: string, env: string, newRecipient: string, sha: Files.Sha, policy: Policy)

  datatype VerifyResult = VerifyResult(thumbs: seq<string>, names: seq<string>)

  function MetaMatches(m: Meta, q: VerifyRequest): Option<QError> {
    if m.app != q.app || m.env != q.env then Some(OtherNamespace)
    else if m.newRecipient != q.newRecipient then Some(OtherRecipient)
    else if m.sha != q.sha then Some(StaleSha)
    else if m.m != q.policy.m then Some(PolicyChanged)
    else None
  }

  /** The file `name` holds the current message, readable by the verifier. */
  predicate Signs(h: Digests, dir: PendingDir, who: string, m: Meta, name: string) {
    Decrypted(dir, name, who).Some? && Accepted(h, Decrypted(dir, name, who).value, m)
  }

  predicate IsSig(name: string) {
    HasSuffix(name, ".sig")
  }

  function ThumbOf(name: string): (t: string)
    requires IsSig(name)
    ensures SigName(t) == name
  {
    name[..|name| - 4]
  }

  function Thumbs(h: Digests, ops: seq<Operator>): (r: seq<string>)
    ensures |r| == |ops| && forall i :: 0 <= i < |ops| ==> r[i] == h.thumb(ops[i].recipient)
  {
    seq(|ops|, i requires 0 <= i < |ops| => h.thumb(ops[i].recipient))
  }

  function Names(ops: seq<Operator>): (r: seq<string>)
    ensures |r| == |ops| && forall i :: 0 <= i < |ops| ==> r[i] == ops[i].name
  {
    seq(|ops|, i requires 0 <= i < |ops| => ops[i].name)
  }

  /** The operators counted over a list of directory entries, one per thumbprint. */
  function Collected(h: Digests, dir: PendingDir, who: string, m: Meta, names: seq<string>): seq<Operator> {
    if names == [] then []
    else
      var n := |names| - 1;
      CollectOne(h, dir, who, m, Collected(h, dir, who, m, names[..n]), names[n])
  }

  /** What one more directory entry adds. */
  function CollectOne(h: Digests, dir: PendingDir, who: string, m: Meta, before: seq<Operator>,
                      name: string): seq<Operator> {
    if !IsSig(name) || ThumbOf(name) in Thumbs(h, before) then before
    else
      match OperatorByThumb(h, m.operators, ThumbOf(name))
      case None => before
      case Some(op) => if Signs(h, dir, who, m, name) then before + [op] else before
  }

  method CollectValidSignatures(h: Digests, dir: PendingDir, who: string, m: Meta) returns (out: seq<Operator>)
    ensures out == Collected(h, dir, who, m, Sorted(dir.Keys))
  {
    var entries := Sorted(dir.Keys);
    var seen: set<string> := {};
    out := [];
    for i := 0 to |entries|
      invariant out == Collected(h, dir, who, m, entries[..i])
      invariant forall t :: t in seen <==> t in Thumbs(h, out)
    {
      SortedIndex(dir.Keys, i);
      CollectedNext(h, dir, who, m, entries, i);
      var name := entries[i];
      if dir[name].Folder? || !IsSig(name) {
        continue;
      }
      var thumb := ThumbOf(name);
      if thumb in seen {
        continue;
      }
      var op := OperatorByThumb(h, m.operators, thumb);
      if op.None? {
        continue;
      }
      var plain := Decrypted(dir, name, who);
      if plain.None? || !Accepted(h, plain.value, m) {
        continue;
      }
      ThumbsSnoc(h, out, op.value);
      seen := seen + {thumb};
      out := out + [op.value];
    }
    assert entries[..|entries|] == entries;
  }

  lemma CollectedNext(h: Digests, dir: PendingDir, who: string, m: Meta, names: seq<string>, i: nat)
    requires i < |names|
    ensures Collected(h, dir, who, m, names[..i + 1])
         == CollectOne(h, dir, who, m, Collected(h, dir, who, m, names[..i]), names[i])
  {
    assert names[..i + 1][..i] == names[..i];
  }

  lemma ThumbsSnoc(h: Digests, ops: seq<Operator>, op: Operator)
    ensures Thumbs(h, ops + [op]) == Thumbs(h, ops) + [h.thumb(op.recipient)]
  {
  }

  lemma NamesSnoc(ops: seq<Operator>, op: Operator)
    ensures Names(ops + [op]) == Names(ops) + [op.name]
  {
  }

  /** The names of `all` that no operator of `present` has, in policy order. */
  function MissingNames(all: seq<Operator>, present: seq<Operator>): seq<string> {
    if all == [] then []
    else
      var n := |all| - 1;
      MissingNames(all[..n], present) + if all[n].name in Names(present) then [] else [all[n].name]
  }

  function Join(parts: seq<string>, sep: string): string {
    if parts == [] then ""
    else if |parts| == 1 then parts[0]
    else parts[0] + sep + Join(parts[1..], sep)
  }

  const NONE_REMAINING := "(no operators remaining)"

  function MissingText(all: seq<Operator>, present: seq<Operator>): string {
    if MissingNames(all, present) == [] then NONE_REMAINING else Join(MissingNames(all, present), " or ")
  }

  method DescribeMissing(all: seq<Operator>, present: seq<Operator>) returns (text: string)
    ensures text == MissingText(all, present)
  {
    var got: set<string> := {};
    for i := 0 to |present|
      invariant forall x :: x in got <==> x in Names(present[..i])
    {
      assert Names(present[..i + 1]) == Names(present[..i]) + [present[i].name];
      got := got + {present[i].name};
    }
    assert present[..|present|] == present;
    var names: seq<string> := [];
    for i := 0 to |all|
      invariant names == MissingNames(all[..i], present)
    {
      assert all[..i + 1][..i] == all[..i];
      if all[i].name !in got {
        names := names + [all[i].name];
      }
    }
    assert all[..|all|] == all;
    return if names == [] then NONE_REMAINING else Join(names, " or ");
  }

  /** The operators Verify counts, or why it refuses. */
  function Counted(h: Digests, dir: PendingDir, who: string, q: VerifyRequest): Result<seq<Operator>, QError> {
    match LoadMeta(dir)
    case Err(e) => Err(e)
    case Ok(None) => Err(NoPending)
    case Ok(Some(m)) =>
      if MetaMatches(m, q).Some? then Err(MetaMatches(m, q).value)
      else
        var signers := Collected(h, dir, who, m, Sorted(dir.Keys));
        if |signers| < m.m then Err(Short(|signers|, m.m, MissingText(m.operators, signers))) else Ok(signers)
  }

  function Verified(h: Digests, dir: PendingDir, who: string, q: VerifyRequest): Result<VerifyResult, QError> {
    match Counted(h, dir, who, q)
    case Err(e) => Err(e)
    case Ok(signers) => Ok(VerifyResult(Thumbs(h, signers), Names(signers)))
  }

  method Summary(h: Digests, signers: seq<Operator>) returns (r: VerifyResult)
    ensures r == VerifyResult(Thumbs(h, signers), Names(signers))
  {
    var thumbs: seq<string>, names: seq<string> := [], [];
    for i := 0 to |signers|
      invariant thumbs == Thumbs(h, signers[..i]) && names == Names(signers[..i])
    {
      assert signers[..i + 1] == signers[..i] + [signers[i]];
      ThumbsSnoc(h, signers[..i], signers[i]);
      NamesSnoc(signers[..i], signers[i]);
      thumbs, names := thumbs + [h.thumb(signers[i].recipient)], names + [signers[i].name];
    }
    assert signers[..|signers|] == signers;
    return VerifyResult(thumbs, names);
  }

  // ---- the pending directory ------------------------------------------------------------------

  class Pending {
    var files: PendingDir

    constructor ()
      ensures files == map[]
    {
      files := map[];
    }

    method PrepareAdd(h: Digests, q: PrepareRequest, nonce: string, f: PrepareFault) returns (e: Option<QError>)
      modifies this
      ensures (files, e) == PrepareRun(h, old(files), q, nonce, f)
    {
      e := PrepareCheck(q);
      if e.Some? {
        return;
      }
      if f.SetupFails? {
        return Some(IoFailed);
      }
      var message := Canonical.Message(q.app, q.env, q.newRecipient, h.hex(q.sha), nonce);
      var ops := q.policy.operators;
      for i := 0 to |ops|
        invariant files == Challenges(h, old(files), ops[..i], message)
        invariant f.EncryptFails? || f.WriteFails? ==> f.at >= i
      {
        assert ops[..i + 1][..i] == ops[..i];
        var thumb := h.thumb(ops[i].recipient);
        if f == EncryptFails(i) {
          return Some(IoFailed);
        }
        if f.WriteFails? && f.at == i {
          if f.torn {
            files := files[ChallengeName(thumb) := Torn];
          }
          return Some(IoFailed);
        }
        files := files[ChallengeName(thumb) := Age([ops[i].recipient], message)];
      }
      assert ops[..|ops|] == ops;
      if f.MetaFails? {
        return Some(IoFailed);
      }
      var meta := Meta(1, q.app, q.env, q.newRecipient, q.sha, nonce, q.verifier, ops, q.policy.m);
      files := files[META_NAME := MetaJson(meta)];
      return None;
    }

    method SignAdd(h: Digests, q: SignRequest, who: string, f: SignFault) returns (e: Option<QError>)
      modifies this
      ensures (files, e) == SignRun(h, old(files), q, who, f)
    {
      if q.operator == "" || q.newRecipient == "" {
        return Some(EmptyInput);
      }
      var meta := LoadMeta(files);
      if meta.Err? {
        return Some(meta.error);
      }
      if meta.value.None? {
        return Some(NoPending);
      }
      var m := meta.value.value;
      e := SignMatches(m, q);
      if e.Some? {
        return;
      }
      var thumb := h.thumb(q.operator);
      if OperatorByThumb(h, m.operators, thumb).None? {
        return Some(NotAnOperator);
      }
      if ChallengeName(thumb) !in files {
        return Some(ChallengeMissing);
      }
      var plain := Decrypted(files, ChallengeName(thumb), who);
      if plain.None? {
        return Some(ChallengeLocked);
      }
      if !Accepted(h, plain.value, m) {
        return Some(Mismatch);
      }
      if f.SignEncryptFails? {
        return Some(IoFailed);
      }
      if f.SignWriteFails? {
        if f.torn {
          files := files[SigName(thumb) := Torn];
        }
        return Some(IoFailed);
      }
      files := files[SigName(thumb) := Age([m.verifier], plain.value)];
      return None;
    }

    method Verify(h: Digests, who: string, q: VerifyRequest) returns (r: Result<VerifyResult, QError>)
      ensures r == Verified(h, files, who, q)
    {
      var meta := LoadMeta(files);
      if meta.Err? {
        return Err(meta.error);
      }
      if meta.value.None? {
        return Err(NoPending);
      }
      var m := meta.value.value;
      var mismatch := MetaMatches(m, q);
      if mismatch.Some? {
        return Err(mismatch.value);
      }
      var signers := CollectValidSignatures(h, files, who, m);
      if |signers| < m.m {
        var text := DescribeMissing(m.operators, signers);
        return Err(Short(|signers|, m.m, text));
      }
      var result := Summary(h, signers);
      return Ok(result);
    }

    /** ClearPending. When the removal fails midway, `left` are the names it did not get to. */
    method Clear(left: set<string>) returns (e: Option<QError>)
      modifies this
      ensures files == Cleared(old(files), left)
      ensures e.None? <==> files == map[]
    {
      files := Cleared(files, left);
      e := if files == map[] then None else Some(IoFailed);
    }
  }

  function Cleared(dir: PendingDir, left: set<string>): PendingDir {
    map n | n in dir && n in left :: dir[n]
  }
}
