/**
 * String helpers shared by the renderer and the editor: JavaScript's
 * `String.prototype.trim`, character counting and concatenation of pieces.
 */
module Text {

  /** The characters `String.prototype.trim` removes: ECMAScript WhiteSpace and LineTerminator. */
  predicate IsWhitespace(c: char) {
    || c == '\t' || c == '\n' || c == '\U{000B}' || c == '\U{000C}' || c == '\r' || c == ' '
    || c == '\U{00A0}' || c == '\U{1680}' || ('\U{2000}' <= c <= '\U{200A}')
    || c == '\U{2028}' || c == '\U{2029}' || c == '\U{202F}' || c == '\U{205F}'
    || c == '\U{3000}' || c == '\U{FEFF}'
  }

  predicate AllWhitespace(s: string) {
    forall i | 0 <= i < |s| :: IsWhitespace(s[i])
  }

  /** Some character of `s` survives trimming. */
  predicate HasVisible(s: string) {
    exists i | 0 <= i < |s| :: !IsWhitespace(s[i])
  }

  predicate StartsWith(s: string, prefix: string) {
    |prefix| <= |s| && s[..|prefix|] == prefix
  }

  predicate EndsWith(s: string, suffix: string) {
    |suffix| <= |s| && s[|s| - |suffix|..] == suffix
  }

  /** Drops leading white space: what is left is a suffix of `s` that starts visibly. */
  function TrimStart(s: string): (r: string)
    ensures |r| <= |s| && r == s[|s| - |r|..]
    ensures AllWhitespace(s[..|s| - |r|])
    ensures r != [] ==> !IsWhitespace(r[0])
    ensures r == [] <==> AllWhitespace(s)
  {
    if |s| > 0 && IsWhitespace(s[0]) then
      var r := TrimStart(s[1..]);
      var k := |s| - |r|;
      assert forall i | 1 <= i < k :: s[..k][i] == s[1..][..k - 1][i - 1];
      r
    else s
  }

  /** Drops trailing white space: what is left is a prefix of `s` that ends visibly. */
  function TrimEnd(s: string): (r: string)
    ensures |r| <= |s| && r == s[..|r|]
    ensures AllWhitespace(s[|r|..])
    ensures r != [] ==> !IsWhitespace(r[|r| - 1])
    ensures r == [] <==> AllWhitespace(s)
  {
    if |s| > 0 && IsWhitespace(s[|s| - 1]) then TrimEnd(s[..|s| - 1]) else s
  }

  /** `String.prototype.trim`: empty exactly when `s` is all white space, and otherwise
      a piece of `s` that neither starts nor ends with white space. */
  function Trim(s: string): (r: string)
    ensures r == [] <==> AllWhitespace(s)
    ensures r != [] ==> !IsWhitespace(r[0]) && !IsWhitespace(r[|r| - 1])
  {
    var t := TrimStart(s);
    var r := TrimEnd(t);
    assert r != [] ==> r[0] == t[0];
    r
  }

  lemma {:induction false} TrimStartSkips(p: string, m: string)
    requires AllWhitespace(p)
    requires m == [] || !IsWhitespace(m[0])
    ensures TrimStart(p + m) == m
    decreases |p|
  {
    if p != [] {
      assert (p + m)[1..] == p[1..] + m;
      TrimStartSkips(p[1..], m);
    } else {
      assert p + m == m;
    }
  }

  lemma {:induction false} TrimEndSkips(m: string, q: string)
    requires AllWhitespace(q)
    requires m == [] || !IsWhitespace(m[|m| - 1])
    ensures TrimEnd(m + q) == m
    decreases |q|
  {
    if q != [] {
      var q' := q[..|q| - 1];
      assert (m + q)[..|m + q| - 1] == m + q';
      TrimEndSkips(m, q');
    } else {
      assert m + q == m;
    }
  }

  /** Trimming a text framed by white space gives back the text, when the text itself
      starts and ends visibly. */
  lemma TrimFramed(p: string, m: string, q: string)
    requires AllWhitespace(p) && AllWhitespace(q)
    requires m != [] && !IsWhitespace(m[0]) && !IsWhitespace(m[|m| - 1])
    ensures Trim(p + m + q) == m
  {
    assert p + m + q == p + (m + q);
    TrimStartSkips(p, m + q);
    TrimEndSkips(m, q);
  }

  /** `s.trim().length > 0` holds exactly when `s` has a visible character. */
  lemma TrimNonEmptyIff(s: string)
    ensures |Trim(s)| > 0 <==> HasVisible(s)
  {
    if |Trim(s)| == 0 {
      assert AllWhitespace(s);
    } else {
      assert !AllWhitespace(s);
    }
  }

  /** Number of occurrences of `c` in `s`. */
  function CountChar(s: string, c: char): (n: nat)
    ensures n <= |s|
  {
    if s == [] then 0 else (if s[0] == c then 1 else 0) + CountChar(s[1..], c)
  }

  lemma {:induction false} CountCharAbsent(s: string, c: char)
    requires forall i | 0 <= i < |s| :: s[i] != c
    ensures CountChar(s, c) == 0
    decreases |s|
  {
    if s != [] {
      CountCharAbsent(s[1..], c);
    }
  }

  /** The pieces of a document written one after the other (`Array.prototype.join('')`). */
  function Concat(ps: seq<string>): string {
    if ps == [] then "" else ps[0] + Concat(ps[1..])
  }

  lemma {:induction false} ConcatAppend(ps: seq<string>, qs: seq<string>)
    ensures Concat(ps + qs) == Concat(ps) + Concat(qs)
    decreases |ps|
  {
    if ps == [] {
      assert ps + qs == qs;
    } else {
      assert (ps + qs)[1..] == ps[1..] + qs;
      ConcatAppend(ps[1..], qs);
    }
  }

  /** The first and the last piece of a document stand at its two ends. */
  lemma ConcatEnds(ps: seq<string>)
    requires |ps| >= 2
    ensures Concat(ps) == ps[0] + Concat(ps[1..|ps| - 1]) + ps[|ps| - 1]
  {
    var mid, last := ps[1..|ps| - 1], ps[|ps| - 1];
    assert ps[1..] == mid + [last];
    ConcatAppend(mid, [last]);
    assert Concat([last]) == last by {
      assert [last][1..] == [];
      assert last + "" == last;
    }
    assert Concat(ps) == ps[0] + (Concat(mid) + last);
    AppendAssoc(ps[0], Concat(mid), last);
  }

  lemma ConcatSingle(x: string)
    ensures Concat([x]) == x
  {
    assert [x][1..] == [];
    assert x + "" == x;
  }

  lemma ConcatFour(a: string, b: string, c: string, d: string)
    ensures Concat([a, b, c, d]) == a + b + c + d
  {
    assert [a, b, c, d] == [a] + [b] + [c] + [d];
    ConcatAppend([a] + [b] + [c], [d]);
    ConcatAppend([a] + [b], [c]);
    ConcatAppend([a], [b]);
    ConcatSingle(a);
    ConcatSingle(b);
    ConcatSingle(c);
    ConcatSingle(d);
  }

  lemma ConcatSix(a: string, b: string, c: string, d: string, e: string, f: string)
    ensures Concat([a, b, c, d, e, f]) == a + b + c + d + e + f
  {
    var ps := [a, b, c, d, e, f];
    assert ps == [a, b] + [c, d, e, f];
    ConcatAppend([a, b], [c, d, e, f]);
    ConcatFour(c, d, e, f);
    assert [a, b][1..] == [b];
    ConcatSingle(b);
    AppendAssoc(a + b, c + d + e, f);
    AppendAssoc(a + b, c + d, e);
    AppendAssoc(a + b, c, d);
  }

  lemma AppendAssoc(a: string, b: string, c: string)
    ensures a + (b + c) == a + b + c
  {
  }

  /** The pieces before index `k` form a prefix of the whole. */
  lemma ConcatPrefix(ps: seq<string>, k: nat)
    requires k <= |ps|
    ensures StartsWith(Concat(ps), Concat(ps[..k]))
  {
    assert ps == ps[..k] + ps[k..];
    ConcatAppend(ps[..k], ps[k..]);
    AppendStartsWith(Concat(ps[..k]), Concat(ps[k..]));
  }

  lemma AppendStartsWith(a: string, b: string)
    ensures StartsWith(a + b, a)
  {
    assert (a + b)[..|a|] == a;
  }
}
