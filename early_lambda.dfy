/** The first ingest handler (ingest-lambda/lambda.py): a presence-only
    body check on a single `timestamp` field with a 20-character
    correlation-id limit, the `__IGNORE_KEYS__` filter and the 20-column
    fixed-width line. */
module EarlyLambda {
  import opened Wrappers
  import opened Text
  import opened RequestBody
  import opened ColumnFilter
  import opened FixedWidth

  const CORRELATION_LIMIT: nat := 20
  const LINE_WIDTH: nat := 20

  /** `_body_to_dict`: the parsed dictionary is returned as it is, with no
      timestamp normalisation, once the checks pass. */
  method BodyToDict(body: string) returns (r: Result<KeyValues, ParseError>)
    ensures r == ValidateRaw(BodyPairs(body), CORRELATION_LIMIT)
    ensures r.Ok? ==> r.value == BodyPairs(body)
  {
    r := RawBodyToDict(body, CORRELATION_LIMIT);
    ValidateRawAccepts(BodyPairs(body), CORRELATION_LIMIT);
  }

  /** A present but empty dataset-id passes the checks. */
  lemma EmptyDatasetAccepted(kv: KeyValues)
    requires DATASET_ID in kv && kv[DATASET_ID] == ""
    requires TIMESTAMP in kv && |kv[TIMESTAMP]| > 0
    requires CORRELATION_ID in kv && 0 < |kv[CORRELATION_ID]| <= CORRELATION_LIMIT
    ensures ValidateRaw(kv, CORRELATION_LIMIT) == Ok(kv)
    ensures Normalise(kv, None) == Err(BodyError(NoDatasetId))
  {
  }

  /** The key filter of `lambda_handler`. */
  method ColumnKeys(keys: seq<string>) returns (columns: seq<string>)
    ensures columns == ColumnFilter.ColumnKeys(keys, IGNORE_KEYS)
    ensures forall k :: k in columns <==> k in keys && k !in IGNORE_KEYS && HasAllowedSuffix(k)
  {
    columns := SelectColumnKeys(keys, IGNORE_KEYS);
    ColumnKeysExactly(keys, IGNORE_KEYS);
  }

  /** `_append_record`'s line for an accepted body whose timestamp fits
      its 20 columns: the validation keeps the correlation-id within its
      20, so the value starts at column 40. */
  lemma ColumnLine(body: string, value: string)
    requires ValidateRaw(BodyPairs(body), CORRELATION_LIMIT).Ok?
    requires |BodyPairs(body)[TIMESTAMP]| <= LINE_WIDTH
    ensures var kv := BodyPairs(body);
      var line := FixedLine(kv[TIMESTAMP], kv[CORRELATION_ID], value, LINE_WIDTH, LINE_WIDTH);
      && |line| == 41 + |value|
      && line[..|kv[TIMESTAMP]|] == kv[TIMESTAMP]
      && line[20..20 + |kv[CORRELATION_ID]|] == kv[CORRELATION_ID]
      && line[40..|line| - 1] == value
  {
    var kv := BodyPairs(body);
    FixedLineNeverTruncates(kv[TIMESTAMP], kv[CORRELATION_ID], value, LINE_WIDTH, LINE_WIDTH);
  }
}
