/** The ingest lambda handler of ingest_lambda/lambda_function.py: the
    segment it files a record under. Its `_body_to_dict` is
    `RequestBody.BodyToDict` with no correlation-id limit, and its key
    filter is `ColumnFilter.SelectColumnKeys` over the required keys. */
module IngestLambdaFunction {
  import opened Wrappers
  import opened Text
  import opened RequestBody
  import IngestPayload
  import SegmentIdentifier

  /** `_make_segment_identifier(int(telemetry_dict['timestamp-ns']))`: the
      segment of an accepted body is the bucket of its own timestamp,
      `bucketMinutes` standing for SEGMENT_BUCKET_SIZE_MINUTES. */
  lemma SegmentFromPayload(body: string, bucketMinutes: int)
    requires bucketMinutes > 0
    requires Normalise(BodyPairs(body), None).Ok?
    ensures var out := Normalise(BodyPairs(body), None).value;
      var id := IngestPayload.PayloadSegment(out, bucketMinutes);
      && id.Some? && ParseInt(out[TIMESTAMP_NS]).Some?
      && id.value == SegmentIdentifier.MakeSegmentIdentifier(ParseInt(out[TIMESTAMP_NS]).value, bucketMinutes)
  {
    NormaliseTimestamps(BodyPairs(body), None);
  }
}
