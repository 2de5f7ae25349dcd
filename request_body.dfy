/** `_body_to_dict`, the request-body parser of the ingest lambdas. A body
    is a list of `key=value` lines; the parser collects them into a
    dictionary and then checks the required fields in a fixed order. Four
    of the five copies also normalise the two timestamp fields against each
    other (`Normalise`); the oldest copy, ingest-lambda/lambda.py, only
    checks presence (`ValidateRaw`). */
module RequestBody {
  import opened Wrappers
  import opened Text
  import opened Units

  const DATASET_ID: string := "dataset-id"
  const CORRELATION_ID: string := "correlation-id"
  const TIMESTAMP_NS: string := "timestamp-ns"
  const TIMESTAMP_MS: string := "timestamp-ms"
  const TIMESTAMP: string := "timestamp"

  /** The reasons `BodyError` is raised with. */
  datatype BodyErrorKind =
    | NoDatasetId
    | NoTimestamp
    | EmptyTimestamp
    | NoCorrelationId
    | EmptyCorrelationId
    | CorrelationIdTooLong

  /** `BodyError`, or the `ValueError` that `int()` raises on a timestamp
      that is not a decimal integer. */
  datatype ParseError = BodyError(kind: BodyErrorKind) | ValueError

  type KeyValues = map<string, string>

  // ---------------------------------------------------------------------
  // Collecting the lines

  /** The entry a line contributes: only a line with exactly one `=`
      counts, its key lower-cased and its value kept as written. */
  function LinePair(line: string): Option<(string, string)>
  {
    var split := Split(line, '=');
    if |split| == 2 then Some((Lower(split[0]), split[1])) else None
  }

  /** The dictionary the loop over `lines` builds: each line's entry is
      stored in turn, so a later line overwrites an earlier one. */
  function Pairs(lines: seq<string>): KeyValues
    decreases |lines|
  {
    if |lines| == 0 then map[]
    else
      var kv := Pairs(lines[..|lines| - 1]);
      match LinePair(lines[|lines| - 1])
      case None => kv
      case Some((k, v)) => kv[k := v]
  }

  function BodyPairs(body: string): KeyValues
  {
    Pairs(Split(body, '\n'))
  }

  /** Line `i` of `lines` contributes an entry for key `k`. */
  predicate KeyedAt(lines: seq<string>, i: int, k: string)
    requires 0 <= i < |lines|
  {
    LinePair(lines[i]).Some? && LinePair(lines[i]).value.0 == k
  }

  /** A line contributes an entry exactly when it holds one `=`; the entry
      is the lower-cased text before it and the text after it. */
  lemma LinePairExactlyOneEquals(line: string)
    ensures LinePair(line).Some? <==> Count(line, '=') == 1
    ensures LinePair(line).Some? ==>
      var split := Split(line, '=');
      && line == split[0] + "=" + split[1]
      && '=' !in split[0] && '=' !in split[1]
      && LinePair(line) == Some((Lower(split[0]), split[1]))
  {
    SplitLength(line, '=');
    var split := Split(line, '=');
    if |split| == 2 {
      JoinSplit(line, '=');
      SplitPiecesFree(line, '=');
      assert '=' !in split[0] && '=' !in split[1];
      assert Join(split, '=') == split[0] + ['='] + Join(split[1..], '=');
      assert split[1..] == [split[1]];
    }
  }

  /** A key is in the dictionary exactly when some line contributes it. */
  lemma {:induction false} PairsKeys(lines: seq<string>, k: string)
    ensures k in Pairs(lines) <==> exists i :: 0 <= i < |lines| && KeyedAt(lines, i, k)
    decreases |lines|
  {
    if |lines| > 0 {
      var init := lines[..|lines| - 1];
      PairsKeys(init, k);
      forall i | 0 <= i < |init|
        ensures KeyedAt(init, i, k) == KeyedAt(lines, i, k)
      {
        assert init[i] == lines[i];
      }
      if k in Pairs(lines) && !KeyedAt(lines, |lines| - 1, k) {
        assert k in Pairs(init);
      }
    }
  }

  /** The value stored for a key is the one on the last line that
      contributes that key. */
  lemma {:induction false} PairsLastWins(lines: seq<string>, i: int, k: string)
    requires 0 <= i < |lines| && KeyedAt(lines, i, k)
    requires forall j :: i < j < |lines| ==> !KeyedAt(lines, j, k)
    ensures k in Pairs(lines) && Pairs(lines)[k] == LinePair(lines[i]).value.1
    decreases |lines|
  {
    if i < |lines| - 1 {
      var init := lines[..|lines| - 1];
      assert init[i] == lines[i];
      forall j | i < j < |init|
        ensures !KeyedAt(init, j, k)
      {
        assert init[j] == lines[j];
        assert !KeyedAt(lines, j, k);
      }
      PairsLastWins(init, i, k);
      assert !KeyedAt(lines, |lines| - 1, k);
    }
  }

  /** The `for` loop of `_body_to_dict`. */
  method CollectPairs(body: string) returns (kv: KeyValues)
    ensures kv == BodyPairs(body)
  {
    kv := map[];
    var lines := Split(body, '\n');
    for i := 0 to |lines|
      invariant kv == Pairs(lines[..i])
    {
      var split := Split(lines[i], '=');
      if |split| == 2 {
        kv := kv[Lower(split[0]) := split[1]];
      }
      assert lines[..i + 1][..i] == lines[..i];
    }
    assert lines[..|lines|] == lines;
  }

  // ---------------------------------------------------------------------
  // Validation with timestamp normalisation

  predicate HasDataset(kv: KeyValues)
  {
    DATASET_ID in kv && |kv[DATASET_ID]| > 0
  }

  predicate HasTimestamp(kv: KeyValues)
  {
    TIMESTAMP_NS in kv || TIMESTAMP_MS in kv
  }

  /** Every timestamp field present is a decimal integer. */
  predicate TimestampsParse(kv: KeyValues)
  {
    && (TIMESTAMP_NS in kv ==> ParseInt(kv[TIMESTAMP_NS]).Some?)
    && (TIMESTAMP_MS in kv ==> ParseInt(kv[TIMESTAMP_MS]).Some?)
  }

  predicate HasCorrelation(kv: KeyValues)
  {
    CORRELATION_ID in kv && |kv[CORRELATION_ID]| > 0
  }

  predicate CorrelationFits(kv: KeyValues, limit: Option<nat>)
    requires CORRELATION_ID in kv
  {
    limit.None? || |kv[CORRELATION_ID]| <= limit.value
  }

  /** The two timestamps written back: from `timestamp-ms` when it is
      present, otherwise from `timestamp-ns`, the milliseconds taken by
      floor division. */
  function NormalTimestamps(kv: KeyValues): (int, int)
    requires HasTimestamp(kv) && TimestampsParse(kv)
  {
    if TIMESTAMP_MS in kv then
      var ms := ParseInt(kv[TIMESTAMP_MS]).value;
      (ms * NS_PER_MS, ms)
    else
      var ns := ParseInt(kv[TIMESTAMP_NS]).value;
      (ns, ns / NS_PER_MS)
  }

  /** The checks and rewrites after the loop, in the order the code makes
      them; `limit` is the correlation-id width limit of the copies that
      have one. */
  function Normalise(kv: KeyValues, limit: Option<nat>): Result<KeyValues, ParseError>
  {
    if !HasDataset(kv) then Err(BodyError(NoDatasetId))
    else if !HasTimestamp(kv) then Err(BodyError(NoTimestamp))
    else if !TimestampsParse(kv) then Err(ValueError)
    else
      var (ns, ms) := NormalTimestamps(kv);
      var out := kv[TIMESTAMP_NS := IntToString(ns)][TIMESTAMP_MS := IntToString(ms)];
      if !HasCorrelation(out) then Err(BodyError(NoCorrelationId))
      else if !CorrelationFits(out, limit) then Err(BodyError(CorrelationIdTooLong))
      else Ok(out)
  }

  /** `_body_to_dict` of the four copies that normalise timestamps. */
  method BodyToDict(body: string, limit: Option<nat>) returns (r: Result<KeyValues, ParseError>)
    ensures r == Normalise(BodyPairs(body), limit)
  {
    var kv := CollectPairs(body);
    if DATASET_ID !in kv || |kv[DATASET_ID]| == 0 {
      return Err(BodyError(NoDatasetId));
    }
    if TIMESTAMP_NS !in kv && TIMESTAMP_MS !in kv {
      return Err(BodyError(NoTimestamp));
    }
    var ms := 0;
    var ns := 0;
    if TIMESTAMP_NS in kv {
      var parsed := ParseInt(kv[TIMESTAMP_NS]);
      if parsed.None? {
        return Err(ValueError);
      }
      ms := parsed.value / NS_PER_MS;
      ns := parsed.value;
    }
    if TIMESTAMP_MS in kv {
      var parsed := ParseInt(kv[TIMESTAMP_MS]);
      if parsed.None? {
        return Err(ValueError);
      }
      ms := parsed.value;
      ns := parsed.value * NS_PER_MS;
    }
    kv := kv[TIMESTAMP_NS := IntToString(ns)];
    kv := kv[TIMESTAMP_MS := IntToString(ms)];
    if CORRELATION_ID !in kv || |kv[CORRELATION_ID]| == 0 {
      return Err(BodyError(NoCorrelationId));
    }
    if limit.Some? && |kv[CORRELATION_ID]| > limit.value {
      return Err(BodyError(CorrelationIdTooLong));
    }
    return Ok(kv);
  }

  /** Each error is raised exactly when every earlier check passed and its
      own check fails: dataset-id, then timestamp presence, then the
      integer conversions, then correlation-id, then its width. */
  lemma NormaliseErrorOrder(kv: KeyValues, limit: Option<nat>)
    ensures var r := Normalise(kv, limit);
      && (r == Err(BodyError(NoDatasetId)) <==> !HasDataset(kv))
      && (r == Err(BodyError(NoTimestamp)) <==> HasDataset(kv) && !HasTimestamp(kv))
      && (r == Err(ValueError) <==> HasDataset(kv) && HasTimestamp(kv) && !TimestampsParse(kv))
      && (r == Err(BodyError(NoCorrelationId)) <==>
            HasDataset(kv) && HasTimestamp(kv) && TimestampsParse(kv) && !HasCorrelation(kv))
      && (r == Err(BodyError(CorrelationIdTooLong)) <==>
            HasDataset(kv) && HasTimestamp(kv) && TimestampsParse(kv) && HasCorrelation(kv)
            && !CorrelationFits(kv, limit))
      && (r.Ok? <==>
            HasDataset(kv) && HasTimestamp(kv) && TimestampsParse(kv) && HasCorrelation(kv)
            && CorrelationFits(kv, limit))
      && (r.Err? ==> r.error != BodyError(EmptyTimestamp) && r.error != BodyError(EmptyCorrelationId))
  {
    if HasDataset(kv) && HasTimestamp(kv) && TimestampsParse(kv) {
      var (ns, ms) := NormalTimestamps(kv);
      var out := kv[TIMESTAMP_NS := IntToString(ns)][TIMESTAMP_MS := IntToString(ms)];
      assert CORRELATION_ID != TIMESTAMP_NS && CORRELATION_ID != TIMESTAMP_MS;
      assert (CORRELATION_ID in out) == (CORRELATION_ID in kv);
    }
  }

  /** On success both timestamp fields hold decimal integers, the
      milliseconds are always the nanoseconds floor-divided by 10^6, a
      given `timestamp-ms` wins over `timestamp-ns`, and no other entry is
      added, removed or changed. */
  lemma NormaliseTimestamps(kv: KeyValues, limit: Option<nat>)
    requires Normalise(kv, limit).Ok?
    ensures var out := Normalise(kv, limit).value;
      && out.Keys == kv.Keys + {TIMESTAMP_NS, TIMESTAMP_MS}
      && (forall k :: k in kv && k != TIMESTAMP_NS && k != TIMESTAMP_MS ==> out[k] == kv[k])
      && ParseInt(out[TIMESTAMP_NS]).Some? && ParseInt(out[TIMESTAMP_MS]).Some?
      && var ns := ParseInt(out[TIMESTAMP_NS]).value;
         var ms := ParseInt(out[TIMESTAMP_MS]).value;
         && ms * NS_PER_MS <= ns < ms * NS_PER_MS + NS_PER_MS
         && (TIMESTAMP_MS in kv ==> ms == ParseInt(kv[TIMESTAMP_MS]).value && ns == ms * NS_PER_MS)
         && (TIMESTAMP_MS !in kv ==> ns == ParseInt(kv[TIMESTAMP_NS]).value)
  {
    var (ns, ms) := NormalTimestamps(kv);
    ParseIntToString(ns);
    ParseIntToString(ms);
  }

  // ---------------------------------------------------------------------
  // Validation without normalisation (ingest-lambda/lambda.py)

  /** The checks of the oldest copy: presence of dataset-id only, then a
      single `timestamp` field, then correlation-id and its width. */
  function ValidateRaw(kv: KeyValues, limit: nat): Result<KeyValues, ParseError>
  {
    if DATASET_ID !in kv then Err(BodyError(NoDatasetId))
    else if TIMESTAMP !in kv then Err(BodyError(NoTimestamp))
    else if |kv[TIMESTAMP]| == 0 then Err(BodyError(EmptyTimestamp))
    else if CORRELATION_ID !in kv then Err(BodyError(NoCorrelationId))
    else if |kv[CORRELATION_ID]| == 0 then Err(BodyError(EmptyCorrelationId))
    else if |kv[CORRELATION_ID]| > limit then Err(BodyError(CorrelationIdTooLong))
    else Ok(kv)
  }

  method RawBodyToDict(body: string, limit: nat) returns (r: Result<KeyValues, ParseError>)
    ensures r == ValidateRaw(BodyPairs(body), limit)
  {
    var kv := CollectPairs(body);
    if DATASET_ID !in kv {
      return Err(BodyError(NoDatasetId));
    }
    if TIMESTAMP !in kv {
      return Err(BodyError(NoTimestamp));
    }
    if |kv[TIMESTAMP]| == 0 {
      return Err(BodyError(EmptyTimestamp));
    }
    if CORRELATION_ID !in kv {
      return Err(BodyError(NoCorrelationId));
    }
    if |kv[CORRELATION_ID]| == 0 {
      return Err(BodyError(EmptyCorrelationId));
    }
    if |kv[CORRELATION_ID]| > limit {
      return Err(BodyError(CorrelationIdTooLong));
    }
    return Ok(kv);
  }

  /** The dictionary comes back exactly as parsed when, and only when, a
      dataset-id (possibly empty), a non-empty timestamp and a non-empty
      correlation-id within the limit are present; the errors come in the
      order of the checks, and none of them is a `ValueError`. */
  lemma ValidateRawAccepts(kv: KeyValues, limit: nat)
    ensures var r := ValidateRaw(kv, limit);
      && (r.Ok? <==>
            && DATASET_ID in kv
            && TIMESTAMP in kv && |kv[TIMESTAMP]| > 0
            && CORRELATION_ID in kv && 0 < |kv[CORRELATION_ID]| <= limit)
      && (r.Ok? ==> r.value == kv)
      && (r == Err(BodyError(NoDatasetId)) <==> DATASET_ID !in kv)
      && (r == Err(BodyError(NoTimestamp)) <==> DATASET_ID in kv && TIMESTAMP !in kv)
      && (r == Err(BodyError(EmptyTimestamp)) <==> DATASET_ID in kv && TIMESTAMP in kv && |kv[TIMESTAMP]| == 0)
      && (r.Err? ==> r.error.BodyError?)
  {
  }
}
