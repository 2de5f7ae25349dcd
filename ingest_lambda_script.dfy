/** The ingest lambda handler of ingest_lambda/ingest_lambda.py: the
    segment it files a record under and its column-key filter. Its
    `_body_to_dict` is `RequestBody.BodyToDict` with no correlation-id
    limit. */
module IngestLambdaScript {
  import opened Wrappers
  import opened Text
  import opened Units
  import opened RequestBody
  import opened ColumnFilter
  import SegmentIdentifier
  import IngestPayload

  /** The segment of an accepted body is the bucket that holds its
      nanosecond timestamp, `bucketMinutes` standing for
      `__SEGMENT_BUCKET_SIZE_MINUTES__`. */
  lemma SegmentHoldsPayload(body: string, bucketMinutes: int)
    requires bucketMinutes > 0
    requires Normalise(BodyPairs(body), None).Ok?
    ensures var out := Normalise(BodyPairs(body), None).value;
      var id := IngestPayload.PayloadSegment(out, bucketMinutes);
      && id.Some? && ParseInt(out[TIMESTAMP_NS]).Some?
      && var ns := ParseInt(out[TIMESTAMP_NS]).value;
         var start := SegmentIdentifier.BucketStart(ns, SegmentIdentifier.Width(bucketMinutes));
         && id.value == SegmentIdentifier.PREFIX + IntToString(start)
         && start <= ns < start + bucketMinutes * NS_PER_MIN
  {
    var out := Normalise(BodyPairs(body), None).value;
    NormaliseTimestamps(BodyPairs(body), None);
    var ns := ParseInt(out[TIMESTAMP_NS]).value;
    SegmentIdentifier.BucketStartIsFloor(ns, SegmentIdentifier.Width(bucketMinutes), 0);
  }

  /** The key filter of `_lambda_handler_files`. */
  method ColumnKeys(keys: seq<string>) returns (columns: seq<string>)
    ensures columns == ColumnFilter.ColumnKeys(keys, REQUIRED_KEYS)
    ensures forall k :: k in columns <==> k in keys && HasAllowedSuffix(k)
  {
    columns := SelectColumnKeys(keys, REQUIRED_KEYS);
    ColumnKeysExactly(keys, REQUIRED_KEYS);
    forall k | k in keys
      ensures IsColumnKey(k, REQUIRED_KEYS) <==> HasAllowedSuffix(k)
    {
      SkipListsRedundant(k);
    }
  }
}
