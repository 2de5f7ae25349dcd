/** What the three newer ingest handlers do with a parsed body before any
    storage call: the segment of a record is named after the bucket of its
    own `timestamp-ns`, not after the wall clock. */
module IngestPayload {
  import opened Wrappers
  import opened Text
  import opened Units
  import opened RequestBody
  import opened SegmentIdentifier

  /** `make_segment_identifier(int(telemetry_dict['timestamp-ns']))`; a
      missing or non-integer field is the handler's KeyError/ValueError. */
  function PayloadSegment(kv: KeyValues, bucketMinutes: int): Option<string>
    requires bucketMinutes != 0
  {
    if TIMESTAMP_NS in kv && ParseInt(kv[TIMESTAMP_NS]).Some? then
      Some(MakeSegmentIdentifier(ParseInt(kv[TIMESTAMP_NS]).value, bucketMinutes))
    else None
  }

  /** Every accepted body names a segment, and that segment is the bucket
      of the body's own timestamp: of `timestamp-ms` * 10^6 when that field
      was sent, of `timestamp-ns` otherwise. */
  lemma PayloadSegmentBucket(body: string, limit: Option<nat>, bucketMinutes: int)
    requires bucketMinutes > 0
    requires Normalise(BodyPairs(body), limit).Ok?
    ensures var kv := BodyPairs(body);
      var id := PayloadSegment(Normalise(kv, limit).value, bucketMinutes);
      && id.Some?
      && (TIMESTAMP_MS in kv ==>
            id.value == MakeSegmentIdentifier(ParseInt(kv[TIMESTAMP_MS]).value * NS_PER_MS, bucketMinutes))
      && (TIMESTAMP_MS !in kv ==>
            id.value == MakeSegmentIdentifier(ParseInt(kv[TIMESTAMP_NS]).value, bucketMinutes))
  {
    NormaliseTimestamps(BodyPairs(body), limit);
  }
}
