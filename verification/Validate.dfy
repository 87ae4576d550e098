/** Names, recipients and paths (internal/store/validate.go, internal/store/origins.go). */
module Validate {
  import opened Strings
  import opened Sorting

  // ---- names and paths ------------------------------------------------------------------------

  predicate IsAlnum(c: char) {
    'a' <= c <= 'z' || 'A' <= c <= 'Z' || '0' <= c <= '9'
  }

  predicate IsNameChar(c: char) {
    IsAlnum(c) || c == '.' || c == '_' || c == '-'
  }

  predicate HasDotDot(name: string) {
    exists i :: 0 <= i < |name| - 1 && name[i] == '.' && name[i + 1] == '.'
  }

  /** The name pattern and the ban on "..". */
  predicate ValidName(name: string) {
    && name != "" && IsAlnum(name[0])
    && (forall i :: 0 <= i < |name| ==> IsNameChar(name[i]))
    && !HasDotDot(name)
  }

  lemma NameHasNo(name: string, c: char)
    requires ValidName(name) && !IsNameChar(c)
    ensures c !in name
  {
  }

  const MANIFEST_PATH := "thimble.json"

  function BundlePath(app: string, env: string): string {
    app + "/" + env + ".env.age"
  }

  function OriginsPath(app: string, env: string): string {
    app + "/" + env + ".origins.json"
  }

  lemma SplitAt(a: string, x: string, b: string, y: string, c: char)
    requires c !in a && c !in b
    requires a + [c] + x == b + [c] + y
    ensures a == b && x == y
  {
    var s := a + [c] + x;
    assert s[..|a|] == a && s[|a|] == c;
    assert s[..|b|] == b && s[|b|] == c;
    IndexByteUnique(s, c, |a|);
    IndexByteUnique(s, c, |b|);
    assert s[|a| + 1..] == x && s[|b| + 1..] == y;
  }

  lemma JoinInjective(app: string, env: string, app': string, env': string, suffix: string)
    requires ValidName(app) && ValidName(app')
    requires app + "/" + env + suffix == app' + "/" + env' + suffix
    ensures app == app' && env == env'
  {
    NameHasNo(app, '/');
    NameHasNo(app', '/');
    assert app + "/" + env + suffix == app + ['/'] + (env + suffix);
    assert app' + "/" + env' + suffix == app' + ['/'] + (env' + suffix);
    SplitAt(app, env + suffix, app', env' + suffix, '/');
    assert (env + suffix)[..|env|] == env;
    assert (env' + suffix)[..|env'|] == env';
  }

  lemma NotManifest(app: string, env: string, suffix: string)
    ensures app + "/" + env + suffix != MANIFEST_PATH
  {
    var p := app + "/" + env + suffix;
    assert p[|app|] == '/';
    assert '/' in p && '/' !in MANIFEST_PATH;
  }

  /** No two files of the store share a path: bundles and origins files of valid namespaces are
      pairwise distinct and distinct from the manifest. */
  lemma PathsDistinct(app: string, env: string, app': string, env': string)
    requires ValidName(app) && ValidName(app')
    ensures BundlePath(app, env) == BundlePath(app', env') <==> app == app' && env == env'
    ensures OriginsPath(app, env) == OriginsPath(app', env') <==> app == app' && env == env'
    ensures BundlePath(app, env) != OriginsPath(app', env')
    ensures BundlePath(app, env) != MANIFEST_PATH && OriginsPath(app, env) != MANIFEST_PATH
  {
    var b, o := BundlePath(app, env), OriginsPath(app', env');
    if b == BundlePath(app', env') {
      JoinInjective(app, env, app', env', ".env.age");
    }
    if o == OriginsPath(app, env) {
      JoinInjective(app, env, app', env', ".origins.json");
    }
    assert b[|b| - 1] == 'e' && o[|o| - 1] == 'n';
    NotManifest(app, env, ".env.age");
    NotManifest(app, env, ".origins.json");
  }

  /** `path` lies below the directory `dir`. */
  predicate Below(dir: string, path: string) {
    dir + "/" <= path
  }

  lemma OneSlash(app: string, env: string, suffix: string, dir: string)
    requires ValidName(app) && ValidName(env) && '/' !in suffix
    ensures Below(dir, app + "/" + env + suffix) <==> dir == app
  {
    NameHasNo(app, '/');
    NameHasNo(env, '/');
    var path := app + "/" + env + suffix;
    assert path[..|app|] == app && path[|app|] == '/';
    assert forall i :: 0 <= i < |path| && path[i] == '/' ==> i == |app|;
    if Below(dir, path) {
      assert path[|dir|] == (dir + "/")[|dir|] == '/';
      assert dir == path[..|dir|];
    } else {
      assert app + "/" == path[..|app| + 1];
    }
  }

  /** Names are not checked against the fixed files of the store. No bundle or origins path is
      ever a directory of another file, and the manifest's path is one exactly for an application
      of the manifest's name. */
  lemma DirectoryClash(app: string, env: string, app': string, env': string)
    requires ValidName(app) && ValidName(env) && ValidName(app') && ValidName(env')
    ensures !Below(BundlePath(app, env), BundlePath(app', env')) && !Below(BundlePath(app, env), OriginsPath(app', env'))
    ensures !Below(OriginsPath(app, env), BundlePath(app', env')) && !Below(OriginsPath(app, env), OriginsPath(app', env'))
    ensures Below(MANIFEST_PATH, BundlePath(app, env)) <==> app == MANIFEST_PATH
    ensures Below(MANIFEST_PATH, OriginsPath(app, env)) <==> app == MANIFEST_PATH
    ensures ValidName(MANIFEST_PATH)
  {
    OneSlash(app', env', ".env.age", BundlePath(app, env));
    OneSlash(app', env', ".env.age", OriginsPath(app, env));
    OneSlash(app', env', ".origins.json", BundlePath(app, env));
    OneSlash(app', env', ".origins.json", OriginsPath(app, env));
    OneSlash(app, env, ".env.age", MANIFEST_PATH);
    OneSlash(app, env, ".origins.json", MANIFEST_PATH);
    NameHasNo(app', '/');
    assert BundlePath(app, env)[|app|] == '/' && OriginsPath(app, env)[|app|] == '/';
  }

  // ---- recipients -----------------------------------------------------------------------------

  const BECH32_CHARS := "023456789acdefghjklmnpqrstuvwxyz"

  predicate IsBase64Char(c: char) {
    IsAlnum(c) || c == '+' || c == '/'
  }

  predicate IsAgeRecipient(s: string) {
    "age1" <= s && 50 <= |s| - 4 <= 90 && AllIn(s[4..], BECH32_CHARS)
  }

  /** The length of the longest base64 prefix. */
  function Base64Run(s: string): (n: nat)
    ensures n <= |s|
  {
    if s == "" || !IsBase64Char(s[0]) then 0 else 1 + Base64Run(s[1..])
  }

  /** One or more base64 characters, then at most two '='. */
  predicate IsBase64Blob(s: string) {
    var n := Base64Run(s);
    1 <= n && |s| <= n + 2 && AllIn(s[n..], "=")
  }

  predicate IsSSHPayload(rest: string) {
    var space := IndexByte(rest, ' ');
    IsBase64Blob(if space < 0 then rest else rest[..space])
  }

  predicate IsSSHRecipient(s: string) {
    if "ssh-ed25519 " <= s then IsSSHPayload(s[|"ssh-ed25519 "|..])
    else "ssh-rsa " <= s && IsSSHPayload(s[|"ssh-rsa "|..])
  }

  /** The canonical form of a recipient, or None when it is refused. */
  function CleanRecipient(recipient: string): (r: Option<string>)
    ensures r.Some? ==> r.value == TrimEol(recipient) && r.value != ""
  {
    var trimmed := TrimEol(recipient);
    if trimmed == "" || ContainsAny(trimmed, "\r\n\t") then None
    else if IsAgeRecipient(trimmed) || IsSSHRecipient(trimmed) then Some(trimmed)
    else None
  }

  predicate ValidRecipient(r: string) {
    CleanRecipient(r).Some?
  }

  /** Accepted and already canonical. */
  predicate CleanedRecipient(r: string) {
    CleanRecipient(r) == Some(r)
  }

  lemma CleanedIsCleaned(r: string)
    requires ValidRecipient(r)
    ensures CleanedRecipient(CleanRecipient(r).value)
  {
    var c := CleanRecipient(r).value;
    assert c + "" == c;
    TrimEolUnique(c, "");
  }

  predicate ValidRecipients(rs: seq<string>) {
    rs != [] && forall i :: 0 <= i < |rs| ==> ValidRecipient(rs[i])
  }

  method CleanRecipients(recipients: seq<string>) returns (out: Option<seq<string>>)
    ensures out.Some? <==> ValidRecipients(recipients)
    ensures out.Some? ==> |out.value| == |recipients|
    ensures out.Some? ==> forall i :: 0 <= i < |recipients| ==>
      CleanRecipient(recipients[i]) == Some(out.value[i])
  {
    if |recipients| == 0 {
      return None;
    }
    var cleaned := [];
    for i := 0 to |recipients|
      invariant |cleaned| == i
      invariant forall j :: 0 <= j < i ==> CleanRecipient(recipients[j]) == Some(cleaned[j])
    {
      var c := CleanRecipient(recipients[i]);
      if c.None? {
        return None;
      }
      cleaned := cleaned + [c.value];
    }
    return Some(cleaned);
  }

  // ---- recipient lists ------------------------------------------------------------------------

  /** sortedUnique: the distinct non-empty values, increasing. */
  function SortUnique(values: seq<string>): (r: seq<string>)
    ensures StrictlySorted(r)
    ensures Elements(r) == Elements(values) - {""}
  {
    Sorted(Elements(values) - {""})
  }

  method SortedUnique(values: seq<string>) returns (out: seq<string>)
    ensures out == SortUnique(values)
  {
    var seen: set<string> := {};
    var kept: seq<string> := [];
    for i := 0 to |values|
      invariant seen == Elements(kept)
      invariant seen == Elements(values[..i]) - {""}
    {
      assert values[..i + 1] == values[..i] + [values[i]];
      if values[i] == "" || values[i] in seen {
        continue;
      }
      seen := seen + {values[i]};
      kept := kept + [values[i]];
    }
    assert values[..|values|] == values;
    out := Sorted(Elements(kept));
  }

  function Without(rs: seq<string>, r: string): (kept: seq<string>)
    ensures |kept| <= |rs|
  {
    if rs == [] then []
    else if rs[0] != r then [rs[0]] + Without(rs[1..], r)
    else Without(rs[1..], r)
  }

  lemma {:induction false} WithoutElements(rs: seq<string>, r: string)
    ensures Elements(Without(rs, r)) == Elements(rs) - {r}
    ensures |Without(rs, r)| == |rs| <==> r !in rs
  {
    if rs != [] {
      WithoutElements(rs[1..], r);
      assert rs == [rs[0]] + rs[1..];
      assert Elements(rs) == {rs[0]} + Elements(rs[1..]);
      if rs[0] != r {
        assert Elements(Without(rs, r)) == {rs[0]} + Elements(Without(rs[1..], r));
      }
    }
  }

  lemma {:induction false} WithoutSnoc(rs: seq<string>, x: string, r: string)
    ensures Without(rs + [x], r) == Without(rs, r) + if x != r then [x] else []
  {
    if rs == [] {
      assert rs + [x] == [x];
      assert [x][1..] == [];
    } else {
      assert (rs + [x])[1..] == rs[1..] + [x];
      WithoutSnoc(rs[1..], x, r);
    }
  }

  /** The filter loop of the remove operations. `next` is a zero-length slice of the same backing
      array, so the kept recipients overwrite the list being read. */
  method FilterInPlace(backing: array<string>, r: string) returns (n: nat)
    modifies backing
    ensures n <= backing.Length
    ensures backing[..n] == Without(old(backing[..]), r)
    ensures backing[n..] == old(backing[n..])
  {
    n := 0;
    ghost var was := backing[..];
    for i := 0 to backing.Length
      invariant n <= i
      invariant backing[..n] == Without(was[..i], r)
      invariant backing[i..] == was[i..]
      invariant forall j :: n <= j < backing.Length ==> backing[j] == was[j]
    {
      assert backing[i] == was[i];
      assert was[..i + 1] == was[..i] + [was[i]];
      WithoutSnoc(was[..i], was[i], r);
      if backing[i] != r {
        backing[n] := backing[i];
        n := n + 1;
      }
    }
    assert was[..backing.Length] == was;
    assert backing[n..] == was[n..];
  }

  /** What a recipient list looks like in every manifest the store writes. */
  ghost predicate ListInvariant(rs: seq<string>) {
    StrictlySorted(rs) && ValidRecipients(rs) && "" !in rs
  }

  function AddTo(rs: seq<string>, r: string): seq<string> {
    SortUnique(rs + [r])
  }

  /** dropRecipient and the closure of RemoveRecipient, with both refusals. */
  function DropFrom(rs: seq<string>, r: string): Option<seq<string>> {
    var next := Without(rs, r);
    if |next| == |rs| || |next| == 0 then None else Some(SortUnique(next))
  }

  lemma ElementsConcat(a: seq<string>, b: seq<string>)
    ensures Elements(a + b) == Elements(a) + Elements(b)
  {
  }

  lemma ValidByElements(rs: seq<string>, s: set<string>)
    requires Elements(rs) == s && s != {} && forall r :: r in s ==> ValidRecipient(r)
    ensures ValidRecipients(rs)
  {
    assert forall i :: 0 <= i < |rs| ==> rs[i] in Elements(rs);
    var x :| x in s;
    assert x in Elements(rs);
  }

  lemma ListValid(rs: seq<string>)
    requires ListInvariant(rs)
    ensures Elements(rs) != {} && "" !in Elements(rs)
    ensures forall r :: r in Elements(rs) ==> ValidRecipient(r)
  {
    assert rs[0] in Elements(rs);
  }

  lemma AddKeepsList(rs: seq<string>, r: string)
    requires ListInvariant(rs) && ValidRecipient(r)
    ensures ListInvariant(AddTo(rs, r))
    ensures r != "" ==> Elements(AddTo(rs, r)) == Elements(rs) + {r}
  {
    ListValid(rs);
    ElementsConcat(rs, [r]);
    assert Elements([r]) == {r};
    var s := Elements(rs) + {r} - {""};
    assert rs[0] in s;
    ValidByElements(AddTo(rs, r), s);
    assert "" !in Elements(AddTo(rs, r));
  }

  /** Removing gives exactly the old set minus the recipient, refuses an absent one and refuses
      to empty the list. */
  lemma {:induction false} DropIsExact(rs: seq<string>, r: string)
    requires ListInvariant(rs)
    ensures DropFrom(rs, r).Some? <==> r in rs && exists x :: x in rs && x != r
    ensures DropFrom(rs, r).Some? ==>
      ListInvariant(DropFrom(rs, r).value) && Elements(DropFrom(rs, r).value) == Elements(rs) - {r}
  {
    WithoutElements(rs, r);
    ListValid(rs);
    var next := Without(rs, r);
    if |next| == 0 {
      assert Elements(next) == {};
      assert forall x :: x in rs ==> x in Elements(rs);
    } else {
      assert next[0] in Elements(next);
      assert next[0] in rs && next[0] != r;
      if r in rs {
        ValidByElements(SortUnique(next), Elements(rs) - {r});
      }
    }
  }

  /** Adding an absent recipient and dropping it again restores the list. */
  lemma AddThenDrop(rs: seq<string>, r: string)
    requires ListInvariant(rs) && ValidRecipient(r) && r != "" && r !in rs
    ensures DropFrom(AddTo(rs, r), r) == Some(rs)
  {
    AddKeepsList(rs, r);
    var added := AddTo(rs, r);
    assert r in Elements(added) && rs[0] in Elements(added) && rs[0] != r;
    DropIsExact(added, r);
    assert Elements(rs) + {r} - {r} == Elements(rs);
    StrictlySortedUnique(DropFrom(added, r).value, rs);
  }
}
