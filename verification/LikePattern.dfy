/** Literal substring search through SQL LIKE: the search text is escaped, wrapped in percent signs
    and matched under ESCAPE '\'. */
module LikePattern {

  const Esc: char := '\\'
  const Any: char := '%'
  const One: char := '_'

  /** `strings.ReplaceAll` for a pattern of one character. */
  function ReplaceAll(s: string, c: char, r: string): string {
    if s == [] then [] else (if s[0] == c then r else [s[0]]) + ReplaceAll(s[1..], c, r)
  }

  /** `escapeLike`: three passes, the escape character first. */
  function EscapeLike(s: string): string {
    ReplaceAll(ReplaceAll(ReplaceAll(s, Esc, [Esc, Esc]), Any, [Esc, Any]), One, [Esc, One])
  }

  function EscapeChar(c: char): string {
    if c == Esc || c == Any || c == One then [Esc, c] else [c]
  }

  /** What the passes are meant to do: one escape per special character. */
  function Escaped(s: string): string {
    if s == [] then [] else EscapeChar(s[0]) + Escaped(s[1..])
  }

  lemma {:induction false} ReplaceConcat(a: string, b: string, c: char, r: string)
    ensures ReplaceAll(a + b, c, r) == ReplaceAll(a, c, r) + ReplaceAll(b, c, r)
  {
    if a == [] {
      assert a + b == b;
    } else {
      var rest := a[1..];
      ReplaceConcat(rest, b, c, r);
      assert (a + b)[1..] == rest + b && (a + b)[0] == a[0];
    }
  }

  lemma ReplaceOne(x: char, c: char, r: string)
    ensures ReplaceAll([x], c, r) == if x == c then r else [x]
  {
    assert ReplaceAll([x][1..], c, r) == [];
  }

  lemma ReplaceTwo(x: char, y: char, c: char, r: string)
    ensures ReplaceAll([x, y], c, r) == (if x == c then r else [x]) + (if y == c then r else [y])
  {
    assert [x, y] == [x] + [y];
    ReplaceConcat([x], [y], c, r);
    ReplaceOne(x, c, r);
    ReplaceOne(y, c, r);
  }

  lemma EscapeLikeChar(x: char)
    ensures EscapeLike([x]) == EscapeChar(x)
  {
    ReplaceOne(x, Esc, [Esc, Esc]);
    if x == Esc {
      ReplaceTwo(Esc, Esc, Any, [Esc, Any]);
      ReplaceTwo(Esc, Esc, One, [Esc, One]);
    } else {
      ReplaceOne(x, Any, [Esc, Any]);
      ReplaceTwo(Esc, Any, One, [Esc, One]);
      ReplaceOne(x, One, [Esc, One]);
    }
  }

  lemma EscapeLikeConcat(a: string, b: string)
    ensures EscapeLike(a + b) == EscapeLike(a) + EscapeLike(b)
  {
    ReplaceConcat(a, b, Esc, [Esc, Esc]);
    var a1, b1 := ReplaceAll(a, Esc, [Esc, Esc]), ReplaceAll(b, Esc, [Esc, Esc]);
    ReplaceConcat(a1, b1, Any, [Esc, Any]);
    ReplaceConcat(ReplaceAll(a1, Any, [Esc, Any]), ReplaceAll(b1, Any, [Esc, Any]), One, [Esc, One]);
  }

  /** The three ordered passes escape every character exactly once. */
  lemma {:induction false} PassesEscapeOnce(s: string)
    ensures EscapeLike(s) == Escaped(s)
  {
    if s != [] {
      assert s == [s[0]] + s[1..];
      EscapeLikeConcat([s[0]], s[1..]);
      EscapeLikeChar(s[0]);
      PassesEscapeOnce(s[1..]);
    }
  }

  // LIKE ------------------------------------------------------------------------------------------

  /** LIKE compares ASCII letters without regard to case. */
  function Fold(c: char): char {
    if 'A' <= c <= 'Z' then (c as int + 32) as char else c
  }

  predicate Same(a: char, b: char) {
    Fold(a) == Fold(b)
  }

  /** A pattern against a text under ESCAPE '\'; a dangling escape matches nothing. */
  predicate Like(p: string, t: string)
    decreases |p|, |t|
  {
    if p == [] then t == []
    else if p[0] == Any then Like(p[1..], t) || (t != [] && Like(p, t[1..]))
    else if p[0] == One then t != [] && Like(p[1..], t[1..])
    else if p[0] == Esc then |p| > 1 && t != [] && Same(p[1], t[0]) && Like(p[2..], t[1..])
    else t != [] && Same(p[0], t[0]) && Like(p[1..], t[1..])
  }

  /** `s` stands in `t` at position `i`. */
  ghost predicate StandsAt(s: string, t: string, i: int) {
    0 <= i <= |t| - |s| && forall k :: 0 <= k < |s| ==> Same(s[k], t[i + k])
  }

  ghost predicate Occurs(s: string, t: string) {
    exists i :: StandsAt(s, t, i)
  }

  lemma {:induction false} AnyMatchesAll(t: string)
    ensures Like([Any], t)
  {
    assert [Any][1..] == [];
    if t != [] {
      AnyMatchesAll(t[1..]);
    }
  }

  /** An escaped text followed by a percent sign matches what begins with the text. */
  lemma {:induction false} EscapedMatchesPrefix(s: string, t: string)
    ensures Like(Escaped(s) + [Any], t) <==> StandsAt(s, t, 0)
  {
    if s == [] {
      assert Escaped(s) + [Any] == [Any];
      AnyMatchesAll(t);
    } else {
      var p := Escaped(s) + [Any];
      var n := |EscapeChar(s[0])|;
      assert p == EscapeChar(s[0]) + (Escaped(s[1..]) + [Any]);
      assert p[n..] == Escaped(s[1..]) + [Any];
      assert Like(p, t) <==> t != [] && Same(s[0], t[0]) && Like(p[n..], t[1..]);
      if t != [] {
        EscapedMatchesPrefix(s[1..], t[1..]);
        ShiftPrefix(s, t);
      }
    }
  }

  lemma ShiftPrefix(s: string, t: string)
    requires s != [] && t != []
    ensures StandsAt(s, t, 0) <==> Same(s[0], t[0]) && StandsAt(s[1..], t[1..], 0)
  {
    if Same(s[0], t[0]) && StandsAt(s[1..], t[1..], 0) {
      forall k | 0 <= k < |s| ensures Same(s[k], t[k]) {
        if k > 0 {
          assert s[k] == s[1..][k - 1] && t[k] == t[1..][k - 1];
        }
      }
    }
    if StandsAt(s, t, 0) {
      forall k | 0 <= k < |s[1..]| ensures Same(s[1..][k], t[1..][0 + k]) {
        assert Same(s[k + 1], t[0 + (k + 1)]);
      }
    }
  }

  /** A leading percent sign lets the rest of the pattern match anywhere. */
  lemma {:induction false} AnyFloats(q: string, t: string)
    ensures Like([Any] + q, t) <==> exists i :: 0 <= i <= |t| && Like(q, t[i..])
  {
    assert ([Any] + q)[1..] == q;
    assert t[0..] == t;
    if t != [] {
      AnyFloats(q, t[1..]);
      if i :| 0 <= i <= |t| && Like(q, t[i..]) {
        if i > 0 {
          assert t[i..] == t[1..][i - 1..];
        }
      }
      if j :| 0 <= j <= |t[1..]| && Like(q, t[1..][j..]) {
        assert t[1..][j..] == t[j + 1..];
      }
    }
  }

  /** Two characters count as the same exactly when they are equal or the two cases of one ASCII letter. */
  lemma SameExactly(a: char, b: char)
    ensures Same(a, b) <==>
            || a == b
            || ('a' <= a <= 'z' && 'A' <= b <= 'Z' && a as int - 'a' as int == b as int - 'A' as int)
            || ('A' <= a <= 'Z' && 'a' <= b <= 'z' && a as int - 'A' as int == b as int - 'a' as int)
  {
  }

  /** For all texts: the search pattern matches exactly the texts in which the search text occurs
      literally, up to the case of ASCII letters. */
  lemma SearchIsLiteral(s: string, t: string)
    ensures Like([Any] + EscapeLike(s) + [Any], t) <==> Occurs(s, t)
  {
    PassesEscapeOnce(s);
    assert [Any] + EscapeLike(s) + [Any] == [Any] + (Escaped(s) + [Any]);
    AnyFloats(Escaped(s) + [Any], t);
    forall i | 0 <= i <= |t|
      ensures Like(Escaped(s) + [Any], t[i..]) <==> StandsAt(s, t, i)
    {
      EscapedMatchesPrefix(s, t[i..]);
      if StandsAt(s, t[i..], 0) {
        forall k | 0 <= k < |s| ensures Same(s[k], t[i + k]) {
          assert t[i..][0 + k] == t[i + k];
        }
      }
      if StandsAt(s, t, i) {
        forall k | 0 <= k < |s| ensures Same(s[k], t[i..][0 + k]) {
          assert t[i..][k] == t[i + k];
        }
      }
    }
  }
}
