/** `make_segment_identifier` (libs/serverless_otel/common/identifier.py):
    a nanosecond timestamp is truncated to the start of its time bucket,
    `bucket_minutes` minutes wide, and rendered as `segment-<start>`.
    The ingest lambdas' `_make_segment_identifier` copies compute the same
    expression with the bucket width read from their configuration. */
module SegmentIdentifier {
  import opened Text
  import opened Units

  const DEFAULT_SEGMENT_SIZE_MINS: int := 15
  const PREFIX: string := "segment-"

  /** `math.floor(a / b)`, with the quotient taken exactly. */
  function FloorDiv(a: int, b: int): (q: int)
    requires b != 0
    ensures b > 0 ==> q * b <= a < q * b + b
    ensures b < 0 ==> q * b >= a > q * b + b
  {
    if b > 0 then a / b else (-a) / (-b)
  }

  /** The first nanosecond of the bucket holding `t`. */
  function BucketStart(t: int, width: int): int
    requires width != 0
  {
    FloorDiv(t, width) * width
  }

  function Width(bucketMinutes: int): int
  {
    bucketMinutes * NS_PER_MIN
  }

  function MakeSegmentIdentifier(currentNanos: int, bucketMinutes: int := DEFAULT_SEGMENT_SIZE_MINS): (id: string)
    requires bucketMinutes != 0
    ensures |id| > |PREFIX| && id[..|PREFIX|] == PREFIX
  {
    NatToStringShape(var s := BucketStart(currentNanos, Width(bucketMinutes)); if s < 0 then -s else s);
    PREFIX + IntToString(BucketStart(currentNanos, Width(bucketMinutes)))
  }

  lemma {:induction false} MulStep(a: int, b: int, w: int)
    requires w > 0 && a < b
    ensures a * w + w <= b * w
    decreases b - a
  {
    assert (a + 1) * w == a * w + w;
    if a + 1 < b {
      MulStep(a + 1, b, w);
    }
  }

  /** Two quotients that both place `t` within one width are equal. */
  lemma QuotientUnique(t: int, w: int, a: int, b: int)
    requires w > 0 && a * w <= t < a * w + w && b * w <= t < b * w + w
    ensures a == b
  {
    if a < b {
      MulStep(a, b, w);
    } else if b < a {
      MulStep(b, a, w);
    }
  }

  lemma MultipleMod(q: int, w: int)
    requires w > 0
    ensures (q * w) % w == 0
  {
    var d := (q * w) / w;
    assert d * w + (q * w) % w == q * w;
    QuotientUnique(q * w, w, d, q);
  }

  /** The bucket start is the one multiple of the width at or below `t`
      that is less than a width away from it. */
  lemma BucketStartIsFloor(t: int, width: int, m: int)
    requires width > 0
    ensures BucketStart(t, width) <= t < BucketStart(t, width) + width
    ensures BucketStart(t, width) % width == 0
    ensures m % width == 0 && m <= t < m + width ==> m == BucketStart(t, width)
  {
    MultipleMod(FloorDiv(t, width), width);
    if m % width == 0 && m <= t < m + width {
      assert m == (m / width) * width;
      QuotientUnique(t, width, m / width, FloorDiv(t, width));
    }
  }

  /** The identifier reads back as the bucket start, a multiple of the
      bucket width within one width at or below the timestamp. */
  lemma IdentifierNamesBucket(currentNanos: int, bucketMinutes: int)
    requires bucketMinutes > 0
    ensures var id := MakeSegmentIdentifier(currentNanos, bucketMinutes);
      && |id| > |PREFIX| && id[..|PREFIX|] == PREFIX
      && ParseInt(id[|PREFIX|..]).Some?
      && var start := ParseInt(id[|PREFIX|..]).value;
         && start % Width(bucketMinutes) == 0
         && start <= currentNanos < start + Width(bucketMinutes)
  {
    var start := BucketStart(currentNanos, Width(bucketMinutes));
    var id := MakeSegmentIdentifier(currentNanos, bucketMinutes);
    assert id[|PREFIX|..] == IntToString(start);
    ParseIntToString(start);
    BucketStartIsFloor(currentNanos, Width(bucketMinutes), 0);
    NatToStringShape(if start < 0 then -start else start);
  }

  /** Feeding a bucket start back in gives the same identifier. */
  lemma IdentifierIdempotent(currentNanos: int, bucketMinutes: int)
    requires bucketMinutes > 0
    ensures var start := BucketStart(currentNanos, Width(bucketMinutes));
      && BucketStart(start, Width(bucketMinutes)) == start
      && MakeSegmentIdentifier(start, bucketMinutes) == MakeSegmentIdentifier(currentNanos, bucketMinutes)
  {
    var w := Width(bucketMinutes);
    var start := BucketStart(currentNanos, w);
    BucketStartIsFloor(currentNanos, w, start);
    BucketStartIsFloor(start, w, start);
  }

  /** Later timestamps never fall in earlier buckets. */
  lemma BucketStartMonotone(t1: int, t2: int, bucketMinutes: int)
    requires bucketMinutes > 0 && t1 <= t2
    ensures BucketStart(t1, Width(bucketMinutes)) <= BucketStart(t2, Width(bucketMinutes))
  {
    var w := Width(bucketMinutes);
    var q1 := FloorDiv(t1, w);
    var q2 := FloorDiv(t2, w);
    if q2 < q1 {
      MulStep(q2, q1, w);
    } else if q1 < q2 {
      MulStep(q1, q2, w);
    }
  }

  /** Two timestamps share an identifier exactly when they fall in the
      same bucket. */
  lemma SameIdentifierIffSameBucket(t1: int, t2: int, bucketMinutes: int)
    requires bucketMinutes > 0
    ensures MakeSegmentIdentifier(t1, bucketMinutes) == MakeSegmentIdentifier(t2, bucketMinutes)
        <==> FloorDiv(t1, Width(bucketMinutes)) == FloorDiv(t2, Width(bucketMinutes))
  {
    var w := Width(bucketMinutes);
    var s1 := BucketStart(t1, w);
    var s2 := BucketStart(t2, w);
    if MakeSegmentIdentifier(t1, bucketMinutes) == MakeSegmentIdentifier(t2, bucketMinutes) {
      assert IntToString(s1) == MakeSegmentIdentifier(t1, bucketMinutes)[|PREFIX|..];
      assert IntToString(s2) == MakeSegmentIdentifier(t2, bucketMinutes)[|PREFIX|..];
      IntToStringInjective(s1, s2);
      var q1 := FloorDiv(t1, w);
      var q2 := FloorDiv(t2, w);
      if q1 < q2 {
        MulStep(q1, q2, w);
      } else if q2 < q1 {
        MulStep(q2, q1, w);
      }
    }
  }
}
