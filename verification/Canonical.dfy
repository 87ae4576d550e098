/** The message that operators sign (internal/quorum/canonical.go). */
module Canonical {
  import opened Strings
  import opened Validate

  const PREFIX := "thimble-recipient-add"

  function Message(app: string, env: string, recipient: string, sha: string, nonce: string): (m: string)
    ensures m != ""
  {
    PREFIX + ":" + app + ":" + env + ":" + recipient + ":" + sha + ":" + nonce
  }

  /** CheckCanonical: trailing CR and LF bytes of the decrypted text are ignored. */
  predicate Accepts(got: string, app: string, env: string, recipient: string, sha: string, nonce: string) {
    TrimEol(got) == Message(app, env, recipient, sha, nonce)
  }

  predicate EndsInEol(s: string) {
    s != "" && s[|s| - 1] in "\r\n"
  }

  /** Two splits at the last `c` are the same split. */
  lemma SplitAtLast(a: string, x: string, b: string, y: string, c: char)
    requires c !in x && c !in y
    requires a + [c] + x == b + [c] + y
    ensures a == b && x == y
  {
    var s := a + [c] + x;
    assert s[|a|] == c && s[|b|] == c;
    assert forall k :: |a| < k < |s| ==> s[k] == x[k - |a| - 1];
    assert forall k :: |b| < k < |s| ==> s[k] == y[k - |b| - 1];
    assert |a| == |b|;
    assert a == s[..|a|] && b == s[..|b|];
    assert x == s[|a| + 1..] && y == s[|b| + 1..];
  }

  lemma Grouped(app: string, env: string, recipient: string, sha: string, nonce: string)
    ensures Message(app, env, recipient, sha, nonce)
         == PREFIX + [':'] + (app + [':'] + (env + [':'] + (recipient + [':'] + sha + [':'] + nonce)))
    ensures Message(app, env, recipient, sha, nonce)
         == (PREFIX + ":" + app + ":" + env + ":" + recipient + ":" + sha) + [':'] + nonce
  {
  }

  /** Equal messages carry equal nonces, whatever the other fields are. */
  lemma NonceOf(a: string, e: string, r: string, s: string, n: string,
                a': string, e': string, r': string, s': string, n': string)
    requires ':' !in n && ':' !in n'
    requires Message(a, e, r, s, n) == Message(a', e', r', s', n')
    ensures n == n'
  {
    Grouped(a, e, r, s, n);
    Grouped(a', e', r', s', n');
    SplitAtLast(PREFIX + ":" + a + ":" + e + ":" + r + ":" + s, n,
                PREFIX + ":" + a' + ":" + e' + ":" + r' + ":" + s', n', ':');
  }

  lemma MiddleInjective(r: string, s: string, n: string, r': string, s': string, n': string)
    requires ':' !in s && ':' !in n && ':' !in s' && ':' !in n'
    requires r + [':'] + s + [':'] + n == r' + [':'] + s' + [':'] + n'
    ensures r == r' && s == s' && n == n'
  {
    SplitAtLast(r + [':'] + s, n, r' + [':'] + s', n', ':');
    SplitAtLast(r, s, r', s', ':');
  }

  /** The message determines all five fields, although a recipient may itself contain ':' (an ssh
      key comment): valid names have none on its left, hex digests and nonces none on its right. */
  lemma Injective(a: string, e: string, r: string, s: string, n: string,
                  a': string, e': string, r': string, s': string, n': string)
    requires ValidName(a) && ValidName(e) && ValidName(a') && ValidName(e')
    requires ':' !in s && ':' !in n && ':' !in s' && ':' !in n'
    requires Message(a, e, r, s, n) == Message(a', e', r', s', n')
    ensures a == a' && e == e' && r == r' && s == s' && n == n'
  {
    NameHasNo(a, ':');
    NameHasNo(e, ':');
    NameHasNo(a', ':');
    NameHasNo(e', ':');
    Grouped(a, e, r, s, n);
    Grouped(a', e', r', s', n');
    var t, t' := r + [':'] + s + [':'] + n, r' + [':'] + s' + [':'] + n';
    SplitAt(PREFIX, a + [':'] + (e + [':'] + t), PREFIX, a' + [':'] + (e' + [':'] + t'), ':');
    SplitAt(a, e + [':'] + t, a', e' + [':'] + t', ':');
    SplitAt(e, t, e', t', ':');
    MiddleInjective(r, s, n, r', s', n');
  }

  /** Without valid names it is not injective: the colon may move between fields. */
  lemma NotInjectiveOnRawNames()
    ensures Message("a:b", "c", "r", "s", "n") == Message("a", "b:c", "r", "s", "n")
  {
  }

  lemma EolTail(want: string, tail: string)
    requires want != "" && !EndsInEol(want) && AllIn(tail, "\r\n")
    ensures TrimEol(want + tail) == want
  {
    TrimEolUnique(want, tail);
  }

  /** The check accepts exactly the message followed by CR and LF bytes, provided the nonce is
      not itself ended by one; then it accepts nothing. */
  lemma AcceptsExactly(got: string, app: string, env: string, recipient: string, sha: string, nonce: string)
    ensures Accepts(got, app, env, recipient, sha, nonce)
        <==> (!EndsInEol(nonce)
              && exists tail :: AllIn(tail, "\r\n") && got == Message(app, env, recipient, sha, nonce) + tail)
  {
    var want := Message(app, env, recipient, sha, nonce);
    Grouped(app, env, recipient, sha, nonce);
    assert EndsInEol(want) <==> EndsInEol(nonce) by {
      assert want[|want| - 1] == if nonce == "" then ':' else nonce[|nonce| - 1];
    }
    if Accepts(got, app, env, recipient, sha, nonce) {
      var tail := got[|want|..];
      assert got == want + tail;
      assert AllIn(tail, "\r\n");
    }
    if !EndsInEol(nonce) && exists tail :: AllIn(tail, "\r\n") && got == want + tail {
      var tail :| AllIn(tail, "\r\n") && got == want + tail;
      EolTail(want, tail);
    }
  }
}
