/** The order of instants as the index stores them: RFC 3339 texts in UTC with trailing zeros of the
    fraction left out, compared as texts.  Date and time of day have a fixed width and sort like the
    seconds they stand for; the fraction does not. */
module TimeText {

  predicate AreDigits(ds: seq<nat>) {
    forall k :: 0 <= k < |ds| ==> ds[k] < 10
  }

  /** Nanoseconds, digit by digit. */
  type Fraction = ds: seq<nat> | |ds| == 9 && AreDigits(ds)
    witness [0, 0, 0, 0, 0, 0, 0, 0, 0]

  datatype Instant = Instant(second: int, fraction: Fraction)

  function Pow10(k: nat): (r: nat)
    ensures r >= 1
  {
    if k == 0 then 1 else 10 * Pow10(k - 1)
  }

  /** The number that the digits stand for. */
  function Value(ds: seq<nat>): nat {
    if ds == [] then 0 else ds[0] * Pow10(|ds| - 1) + Value(ds[1..])
  }

  predicate Earlier(a: Instant, b: Instant) {
    a.second < b.second || (a.second == b.second && Value(a.fraction) < Value(b.fraction))
  }

  predicate AllZero(ds: seq<nat>) {
    forall k :: 0 <= k < |ds| ==> ds[k] == 0
  }

  /** The digits up to the last one that is not zero, and the zone. */
  function Rest(ds: seq<nat>): string
    requires AreDigits(ds)
  {
    if AllZero(ds) then "Z" else [('0' as int + ds[0]) as char] + Rest(ds[1..])
  }

  /** What follows the seconds. */
  function Tail(f: Fraction): string {
    if AllZero(f) then "Z" else "." + Rest(f)
  }

  /** Comparison of texts, byte by byte. */
  predicate Below(s: string, t: string) {
    t != [] && (s == [] || s[0] < t[0] || (s[0] == t[0] && Below(s[1..], t[1..])))
  }

  /** `sent_at < ?` */
  predicate TextBefore(a: Instant, b: Instant) {
    a.second < b.second || (a.second == b.second && Below(Tail(a.fraction), Tail(b.fraction)))
  }

  // Where the two orders differ -------------------------------------------------------------------------

  /** `a` is `b` with zeros from some place on: the text of `a` is that of `b` cut short. */
  ghost predicate Cut(a: seq<nat>, b: seq<nat>) {
    a != b && |a| == |b| && exists k :: CutAt(a, b, k)
  }

  predicate CutAt(a: seq<nat>, b: seq<nat>, k: nat)
    requires |a| == |b|
  {
    k <= |a| && (forall i :: 0 <= i < k ==> a[i] == b[i]) && (forall i :: k <= i < |a| ==> a[i] == 0)
  }

  lemma {:induction false} ValueFits(ds: seq<nat>)
    requires AreDigits(ds)
    ensures Value(ds) < Pow10(|ds|)
    ensures Value(ds) == 0 <==> AllZero(ds)
  {
    if ds != [] {
      var p := Pow10(|ds| - 1);
      ValueFits(ds[1..]);
      Scale(p, ds[0], 9);
      if ds[0] > 0 { Scale(p, 1, ds[0]); }
      assert forall k :: 1 <= k < |ds| ==> ds[k] == ds[1..][k - 1];
    }
  }

  lemma Scale(p: nat, x: nat, y: nat)
    requires x <= y
    ensures x * p <= y * p
  {
  }

  lemma NextMultiple(p: nat, x: nat, y: nat)
    requires x < y
    ensures x * p + p <= y * p
  {
    Scale(p, x + 1, y);
    assert (x + 1) * p == x * p + p;
  }

  /** Numbers compare like their digits. */
  lemma ValueOrder(a: seq<nat>, b: seq<nat>)
    requires |a| == |b| > 0 && AreDigits(a) && AreDigits(b)
    ensures Value(a) < Value(b) <==> a[0] < b[0] || (a[0] == b[0] && Value(a[1..]) < Value(b[1..]))
  {
    ValueFits(a[1..]);
    ValueFits(b[1..]);
    LeadingWins(Pow10(|a| - 1), a[0], Value(a[1..]), b[0], Value(b[1..]));
  }

  lemma LeadingWins(p: nat, d: nat, v: nat, e: nat, u: nat)
    requires v < p && u < p
    ensures d * p + v < e * p + u <==> d < e || (d == e && v < u)
  {
    if d < e { NextMultiple(p, d, e); }
    if e < d { NextMultiple(p, e, d); }
  }

  /** Cutting commutes with taking off the leading digit. */
  lemma CutDigit(a: seq<nat>, b: seq<nat>)
    requires |a| == |b| && !AllZero(a)
    ensures Cut(a, b) <==> a[0] == b[0] && Cut(a[1..], b[1..])
  {
    assert a == [a[0]] + a[1..] && b == [b[0]] + b[1..];
    if k: nat :| CutAt(a, b, k) {
      assert k > 0;
      assert CutAt(a[1..], b[1..], k - 1);
    }
    if k: nat :| a[0] == b[0] && CutAt(a[1..], b[1..], k) {
      forall i | 0 <= i < k + 1 ensures a[i] == b[i] {
        if i > 0 { assert a[1..][i - 1] == b[1..][i - 1]; }
      }
      forall i | k + 1 <= i < |a| ensures a[i] == 0 {
        assert a[1..][i - 1] == 0;
      }
      assert CutAt(a, b, k + 1);
    }
  }

  /** Zero is cut from everything but itself, and nothing else from it. */
  lemma ZeroIsCut(a: seq<nat>, b: seq<nat>)
    requires |a| == |b| && AllZero(a)
    ensures Cut(a, b) <==> !AllZero(b)
    ensures !Cut(b, a)
  {
    assert CutAt(a, b, 0);
    if AllZero(b) { assert a == b; }
    forall k: nat | CutAt(b, a, k) ensures a == b {
      assert forall i :: 0 <= i < |b| ==> b[i] == 0;
    }
  }

  /** A text that is cut short sorts after the text it is cut from; otherwise the texts sort like the numbers. */
  lemma {:induction false} RestOrder(a: seq<nat>, b: seq<nat>)
    requires |a| == |b| && AreDigits(a) && AreDigits(b)
    ensures Below(Rest(a), Rest(b)) <==> (Value(a) < Value(b) && !Cut(a, b)) || Cut(b, a)
    ensures Cut(a, b) ==> Value(a) < Value(b)
  {
    ValueFits(a);
    ValueFits(b);
    if AllZero(a) {
      ZeroIsCut(a, b);
    } else if AllZero(b) {
      ZeroIsCut(b, a);
    } else {
      CutDigit(a, b);
      CutDigit(b, a);
      ValueOrder(a, b);
      RestOrder(a[1..], b[1..]);
      assert Rest(a)[1..] == Rest(a[1..]) && Rest(b)[1..] == Rest(b[1..]);
    }
  }

  /** The stored texts sort like the instants exactly when the seconds differ or neither fraction is the other
      one cut short. */
  lemma TextOrderExactly(a: Instant, b: Instant)
    ensures (TextBefore(a, b) <==> Earlier(a, b)) <==>
            a.second != b.second || (!Cut(a.fraction, b.fraction) && !Cut(b.fraction, a.fraction))
  {
    ValueFits(a.fraction);
    ValueFits(b.fraction);
    RestOrder(a.fraction, b.fraction);
    RestOrder(b.fraction, a.fraction);
    if AllZero(a.fraction) { ZeroIsCut(a.fraction, b.fraction); }
    if AllZero(b.fraction) { ZeroIsCut(b.fraction, a.fraction); }
    assert ("." + Rest(a.fraction))[1..] == Rest(a.fraction);
    assert ("." + Rest(b.fraction))[1..] == Rest(b.fraction);
  }

  /** Instants of whole seconds always sort right. */
  lemma WholeSecondsSort(a: Instant, b: Instant)
    requires AllZero(a.fraction) && AllZero(b.fraction)
    ensures TextBefore(a, b) <==> Earlier(a, b)
  {
    assert a.fraction == b.fraction;
    ZeroIsCut(a.fraction, b.fraction);
    TextOrderExactly(a, b);
  }

  const NoFraction: Fraction := [0, 0, 0, 0, 0, 0, 0, 0, 0]
  const Half: Fraction := [5, 0, 0, 0, 0, 0, 0, 0, 0]

  /** Whatever lies past a full second in that second sorts before it, and the full second not before that. */
  lemma FractionsMislead(full: Instant, past: Instant)
    requires full.second == past.second && AllZero(full.fraction) && !AllZero(past.fraction)
    ensures Earlier(full, past) && TextBefore(past, full) && !TextBefore(full, past)
  {
    ValueFits(full.fraction);
    ValueFits(past.fraction);
  }

  /** There are such instants. */
  lemma HalfIsPast(second: int)
    ensures AllZero(Instant(second, NoFraction).fraction) && !AllZero(Instant(second, Half).fraction)
  {
    assert Half[0] != 0;
  }
}
