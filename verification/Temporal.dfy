/** Time intervals and the classification of instants.
    An instant is an unbounded integer: nanoseconds since the zero time (1 January, year 1, UTC). */
module Temporal {

  datatype State = Past | Current | Future

  datatype Bound = Bound(start: int, end: int) {

    /** start is inclusive, end exclusive. */
    predicate ContainsTime(t: int) {
      start - t <= 0 && end > t
    }

    predicate IsStarted(now: int) {
      now > start
    }

    predicate IsExpired(now: int) {
      now > end
    }
  }

  /** Rounds t down to a multiple of d; a non-positive d leaves t alone. */
  function Truncate(t: int, d: int): int {
    if d <= 0 then t else t - t % d
  }

  /** The bucket of width span that an instant falls in. */
  function BoundOf(t: int, span: int): Bound {
    Bound(Truncate(t, span), Truncate(t, span) + span)
  }

  /** What every bucket made by BoundOf for a positive span looks like. */
  predicate Aligned(b: Bound, span: int) {
    span > 0 && b.start % span == 0 && b.end == b.start + span
  }

  /** Two multiples of d are at least d apart. */
  lemma MultiplesApart(a: int, b: int, d: int)
    requires d > 0 && a % d == 0 && b % d == 0 && a < b
    ensures a + d <= b
  {
    var p, q := a / d, b / d;
    assert a == d * p && b == d * q;
    Stretch(d, q, p);
    Stretch(d, p + 1, q);
    assert d * (p + 1) == d * p + d;
  }

  lemma Stretch(d: int, p: int, q: int)
    requires d > 0
    ensures p <= q ==> d * p <= d * q
  {
    if p <= q {
      assert d * (q - p) >= 0;
      assert d * (q - p) == d * q - d * p;
    }
  }

  lemma TruncateIsMultiple(t: int, d: int)
    requires d > 0
    ensures Truncate(t, d) % d == 0
  {
    var q := t / d;
    assert t == d * q + t % d;
    assert Truncate(t, d) == d * q;
    MultipleMod(q, d);
  }

  lemma MultipleMod(q: int, d: int)
    requires d > 0
    ensures (d * q) % d == 0
  {
    var x := d * q;
    var p := x / d;
    Stretch(d, q + 1, p);
    Stretch(d, p + 1, q);
    assert d * (q + 1) == x + d && d * (p + 1) == d * p + d;
  }

  /** The bucket of an instant contains it exactly when the span is positive. */
  lemma BoundOfContains(t: int, span: int)
    ensures BoundOf(t, span).ContainsTime(t) <==> span > 0
    ensures span > 0 ==> Aligned(BoundOf(t, span), span)
  {
    if span > 0 {
      TruncateIsMultiple(t, span);
    }
  }

  /** Buckets of one span are equal or lie end to start. */
  lemma AlignedApart(a: Bound, b: Bound, span: int)
    requires Aligned(a, span) && Aligned(b, span)
    ensures a == b || a.end <= b.start || b.end <= a.start
  {
    if a.start < b.start {
      MultiplesApart(a.start, b.start, span);
    } else if b.start < a.start {
      MultiplesApart(b.start, a.start, span);
    }
  }

  /** An aligned bucket that contains an instant is the bucket of that instant. */
  lemma AlignedUnique(b: Bound, t: int, span: int)
    requires Aligned(b, span)
    ensures b.ContainsTime(t) <==> b == BoundOf(t, span)
  {
    BoundOfContains(t, span);
    AlignedApart(b, BoundOf(t, span), span);
  }

  /** Later instants fall in the same bucket or in one that starts no earlier than the first one ends. */
  lemma BoundOfMonotone(t: int, u: int, span: int)
    requires span > 0 && t <= u
    ensures BoundOf(t, span) == BoundOf(u, span) || BoundOf(t, span).end <= BoundOf(u, span).start
  {
    BoundOfContains(t, span);
    BoundOfContains(u, span);
    AlignedApart(BoundOf(t, span), BoundOf(u, span), span);
  }
}
