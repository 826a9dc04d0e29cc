/**
 * `escapeAttr` of the email exporter: three global `replace` calls that turn `"`, `<`
 * and `>` into character references. `&` is left alone, so the escaping is not
 * reversible, and text that already holds a reference is not escaped a second time.
 */
module Escape {
  import opened Text

  /** The characters `escapeAttr` rewrites. */
  predicate IsSpecial(c: char) {
    c == '"' || c == '<' || c == '>'
  }

  predicate NoSpecial(s: string) {
    forall i | 0 <= i < |s| :: !IsSpecial(s[i])
  }

  /** `s.replace(/c/g, rep)` for a one-character pattern `c`. */
  function ReplaceAll(s: string, c: char, rep: string): string {
    if s == [] then [] else (if s[0] == c then rep else [s[0]]) + ReplaceAll(s[1..], c, rep)
  }

  /** `escapeAttr(str)`: the chain `"` then `<` then `>`, in the source's order. */
  function EscapeAttr(s: string): string {
    ReplaceAll(ReplaceAll(ReplaceAll(s, '"', "&quot;"), '<', "&lt;"), '>', "&gt;")
  }

  /** Reference definition, one character at a time. */
  function EscapeChar(c: char): string {
    if c == '"' then "&quot;" else if c == '<' then "&lt;" else if c == '>' then "&gt;" else [c]
  }

  function EscapeEach(s: string): string {
    if s == [] then [] else EscapeChar(s[0]) + EscapeEach(s[1..])
  }

  lemma {:induction false} ReplaceAllAppend(a: string, b: string, c: char, rep: string)
    ensures ReplaceAll(a + b, c, rep) == ReplaceAll(a, c, rep) + ReplaceAll(b, c, rep)
    decreases |a|
  {
    if a == [] {
      assert a + b == b;
    } else {
      assert (a + b)[1..] == a[1..] + b;
      ReplaceAllAppend(a[1..], b, c, rep);
    }
  }

  lemma {:induction false} ReplaceAllAbsent(s: string, c: char, rep: string)
    requires forall i | 0 <= i < |s| :: s[i] != c
    ensures ReplaceAll(s, c, rep) == s
    decreases |s|
  {
    if s != [] {
      ReplaceAllAbsent(s[1..], c, rep);
      assert s == [s[0]] + s[1..];
    }
  }

  /** The three passes on one character give that character's escape. */
  lemma EscapeAttrChar(x: char)
    ensures EscapeAttr([x]) == EscapeChar(x)
  {
    ReplaceAllSingle(x, '"', "&quot;");
    if x == '"' {
      ReplaceAllAbsent("&quot;", '<', "&lt;");
      ReplaceAllAbsent("&quot;", '>', "&gt;");
    } else {
      ReplaceAllSingle(x, '<', "&lt;");
      if x == '<' {
        ReplaceAllAbsent("&lt;", '>', "&gt;");
      } else {
        ReplaceAllSingle(x, '>', "&gt;");
      }
    }
  }

  lemma ReplaceAllSingle(x: char, c: char, rep: string)
    ensures ReplaceAll([x], c, rep) == if x == c then rep else [x]
  {
    assert [x][1..] == [];
    var h := if x == c then rep else [x];
    assert h + [] == h;
  }

  /** The source's chain of `replace` calls agrees with the one-pass reference. */
  lemma {:induction false} EscapeAttrIsEscapeEach(s: string)
    ensures EscapeAttr(s) == EscapeEach(s)
    decreases |s|
  {
    if s != [] {
      var x, t := s[0], s[1..];
      assert s == [x] + t;
      ReplaceAllAppend([x], t, '"', "&quot;");
      var a, b := ReplaceAll([x], '"', "&quot;"), ReplaceAll(t, '"', "&quot;");
      ReplaceAllAppend(a, b, '<', "&lt;");
      ReplaceAllAppend(ReplaceAll(a, '<', "&lt;"), ReplaceAll(b, '<', "&lt;"), '>', "&gt;");
      EscapeAttrChar(x);
      EscapeAttrIsEscapeEach(t);
    }
  }

  /** Escaping distributes over concatenation: characters keep their order. */
  lemma EscapeAttrAppend(a: string, b: string)
    ensures EscapeAttr(a + b) == EscapeAttr(a) + EscapeAttr(b)
  {
    EscapeEachAppend(a, b);
    EscapeAttrIsEscapeEach(a + b);
    EscapeAttrIsEscapeEach(a);
    EscapeAttrIsEscapeEach(b);
  }

  lemma {:induction false} EscapeEachAppend(a: string, b: string)
    ensures EscapeEach(a + b) == EscapeEach(a) + EscapeEach(b)
    decreases |a|
  {
    if a == [] {
      assert a + b == b;
    } else {
      assert (a + b)[1..] == a[1..] + b;
      EscapeEachAppend(a[1..], b);
    }
  }

  lemma {:induction false} EscapeEachNoSpecial(s: string)
    ensures NoSpecial(EscapeEach(s))
    decreases |s|
  {
    if s != [] {
      EscapeEachNoSpecial(s[1..]);
      var h := EscapeChar(s[0]);
      assert NoSpecial(h);
      var r := h + EscapeEach(s[1..]);
      forall i | 0 <= i < |r| ensures !IsSpecial(r[i]) {
        if i >= |h| {
          assert r[i] == EscapeEach(s[1..])[i - |h|];
        }
      }
    }
  }

  /** The result of `escapeAttr` holds no `"`, `<` or `>`. */
  lemma EscapeAttrNoSpecial(s: string)
    ensures NoSpecial(EscapeAttr(s))
  {
    EscapeAttrIsEscapeEach(s);
    EscapeEachNoSpecial(s);
  }

  lemma {:induction false} EscapeEachFixesClean(s: string)
    requires NoSpecial(s)
    ensures EscapeEach(s) == s
    decreases |s|
  {
    if s != [] {
      EscapeEachFixesClean(s[1..]);
      assert s == [s[0]] + s[1..];
    }
  }

  /** `escapeAttr` leaves a string unchanged exactly when the string holds none of the three
      characters. */
  lemma EscapeAttrFixedIff(s: string)
    ensures EscapeAttr(s) == s <==> NoSpecial(s)
  {
    EscapeAttrNoSpecial(s);
    if NoSpecial(s) {
      EscapeAttrIsEscapeEach(s);
      EscapeEachFixesClean(s);
    }
  }

  /** Escaping twice is escaping once. */
  lemma EscapeAttrIdempotent(s: string)
    ensures EscapeAttr(EscapeAttr(s)) == EscapeAttr(s)
  {
    EscapeAttrNoSpecial(s);
    EscapeAttrFixedIff(EscapeAttr(s));
  }

  lemma {:induction false} EscapeEachLength(s: string)
    ensures |EscapeEach(s)| ==
      |s| + 5 * CountChar(s, '"') + 3 * CountChar(s, '<') + 3 * CountChar(s, '>')
    decreases |s|
  {
    if s != [] {
      EscapeEachLength(s[1..]);
    }
  }

  /** Each `"` grows by five characters, each `<` and `>` by three, the rest stay as they are. */
  lemma EscapeAttrLength(s: string)
    ensures |EscapeAttr(s)| ==
      |s| + 5 * CountChar(s, '"') + 3 * CountChar(s, '<') + 3 * CountChar(s, '>')
  {
    EscapeAttrIsEscapeEach(s);
    EscapeEachLength(s);
  }

  /** Since `&` passes through, a quote and its own character reference escape alike. */
  lemma EscapeAttrNotInjective()
    ensures EscapeAttr("\"") == EscapeAttr("&quot;") == "&quot;"
  {
    EscapeAttrChar('"');
    assert NoSpecial("&quot;");
    EscapeAttrFixedIff("&quot;");
  }

  /** An escaped text contributes none of the three characters to any document. */
  lemma EscapeAttrCount(s: string, c: char)
    requires IsSpecial(c)
    ensures CountChar(EscapeAttr(s), c) == 0
  {
    EscapeAttrNoSpecial(s);
    CountCharAbsent(EscapeAttr(s), c);
  }
}
