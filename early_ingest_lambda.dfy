/** The hard-link era ingest handler (ingest-lambda/ingest_lambda.py): its
    body parser with a 60-character correlation-id limit, the wall-clock
    segment and the fixed-width column line. Its key filter is
    `ColumnFilter.SelectColumnKeys` over the required keys. */
module EarlyIngestLambda {
  import opened Wrappers
  import opened Text
  import opened RequestBody
  import opened FixedWidth
  import SegmentIdentifier
  import IngestPayload

  const TIMESTAMP_CHARWIDTH: nat := 60
  const CORRELATION_CHARWIDTH: nat := 60

  /** `_body_to_dict`: a correlation-id longer than 60 characters is a
      BodyError, raised after every other check. */
  method BodyToDict(body: string) returns (r: Result<KeyValues, ParseError>)
    ensures r == Normalise(BodyPairs(body), Some(CORRELATION_CHARWIDTH))
    ensures r == Err(BodyError(CorrelationIdTooLong)) <==>
      var kv := BodyPairs(body);
      HasDataset(kv) && HasTimestamp(kv) && TimestampsParse(kv) && HasCorrelation(kv)
      && |kv[CORRELATION_ID]| > CORRELATION_CHARWIDTH
  {
    r := RequestBody.BodyToDict(body, Some(CORRELATION_CHARWIDTH));
    NormaliseErrorOrder(BodyPairs(body), Some(CORRELATION_CHARWIDTH));
  }

  /** The segment is named after the bucket of the handler's start time
      (`__UTC_NOW_NANOS__()`), not after the body's timestamp: it agrees
      with the segment the later handlers derive from the body
      (`IngestPayload.PayloadSegment`) exactly when the start time and the
      body's `timestamp-ns` fall in the same bucket. */
  lemma SegmentFromStartTime(startTime: int, body: string, bucketMinutes: int)
    requires bucketMinutes > 0
    requires Normalise(BodyPairs(body), Some(CORRELATION_CHARWIDTH)).Ok?
    ensures var out := Normalise(BodyPairs(body), Some(CORRELATION_CHARWIDTH)).value;
      var w := SegmentIdentifier.Width(bucketMinutes);
      var id := SegmentIdentifier.MakeSegmentIdentifier(startTime, bucketMinutes);
      var start := SegmentIdentifier.BucketStart(startTime, w);
      && id == SegmentIdentifier.PREFIX + IntToString(start)
      && start <= startTime < start + w
      && IngestPayload.PayloadSegment(out, bucketMinutes).Some?
      && (id == IngestPayload.PayloadSegment(out, bucketMinutes).value <==>
            SegmentIdentifier.FloorDiv(startTime, w) == SegmentIdentifier.FloorDiv(ParseInt(out[TIMESTAMP_NS]).value, w))
  {
    var out := Normalise(BodyPairs(body), Some(CORRELATION_CHARWIDTH)).value;
    NormaliseTimestamps(BodyPairs(body), Some(CORRELATION_CHARWIDTH));
    SegmentIdentifier.BucketStartIsFloor(startTime, SegmentIdentifier.Width(bucketMinutes), 0);
    SegmentIdentifier.SameIdentifierIffSameBucket(startTime, ParseInt(out[TIMESTAMP_NS]).value, bucketMinutes);
  }

  /** `_append_record`'s line for an accepted body whose nanosecond
      timestamp fits its column: the validation keeps the correlation-id
      within its 60 columns, so the line is `121 + |value|` long and the
      value starts at column 120. */
  lemma ColumnLine(body: string, value: string)
    requires Normalise(BodyPairs(body), Some(CORRELATION_CHARWIDTH)).Ok?
    requires var out := Normalise(BodyPairs(body), Some(CORRELATION_CHARWIDTH)).value;
      |out[TIMESTAMP_NS]| <= TIMESTAMP_CHARWIDTH
    ensures var out := Normalise(BodyPairs(body), Some(CORRELATION_CHARWIDTH)).value;
      var line := FixedLine(out[TIMESTAMP_NS], out[CORRELATION_ID], value, TIMESTAMP_CHARWIDTH, CORRELATION_CHARWIDTH);
      && |line| == 121 + |value|
      && line[..|out[TIMESTAMP_NS]|] == out[TIMESTAMP_NS]
      && line[60..60 + |out[CORRELATION_ID]|] == out[CORRELATION_ID]
      && line[120..|line| - 1] == value
  {
    var out := Normalise(BodyPairs(body), Some(CORRELATION_CHARWIDTH)).value;
    NormaliseErrorOrder(BodyPairs(body), Some(CORRELATION_CHARWIDTH));
    FixedLineNeverTruncates(out[TIMESTAMP_NS], out[CORRELATION_ID], value, TIMESTAMP_CHARWIDTH, CORRELATION_CHARWIDTH);
  }
}
