/** The column-key filter of the ingest handlers: every key of the parsed
    body becomes a column file unless it is one of the skipped keys (the
    required fields, or `__IGNORE_KEYS__` in ingest-lambda/lambda.py) or
    does not end in one of the allowed data-type suffixes. The handlers
    walk the dictionary's keys in insertion order; here that order is the
    sequence `keys`. */
module ColumnFilter {
  import opened Text

  const ALLOWED_DATA_TYPE_SUFFIXES: seq<string> := [".int64", ".varchar", ".float64", ".bool", ".datetime"]
  const REQUIRED_KEYS: seq<string> := ["timestamp-ms", "timestamp-ns", "correlation-id", "dataset-id"]
  const IGNORE_KEYS: seq<string> := ["timestamp", "correlation-id", "dataset-id"]

  /** `any(suffix for suffix in SUFFIXES if key.endswith(suffix))`: some
      matching suffix is a non-empty (truthy) string. */
  predicate HasAllowedSuffix(key: string)
  {
    exists i :: 0 <= i < |ALLOWED_DATA_TYPE_SUFFIXES|
      && EndsWith(key, ALLOWED_DATA_TYPE_SUFFIXES[i]) && |ALLOWED_DATA_TYPE_SUFFIXES[i]| > 0
  }

  predicate IsColumnKey(key: string, skip: seq<string>)
  {
    key !in skip && HasAllowedSuffix(key)
  }

  /** The keys written as columns, in the order they are visited. */
  function ColumnKeys(keys: seq<string>, skip: seq<string>): seq<string>
    decreases |keys|
  {
    if |keys| == 0 then []
    else
      var init := ColumnKeys(keys[..|keys| - 1], skip);
      if IsColumnKey(keys[|keys| - 1], skip) then init + [keys[|keys| - 1]] else init
  }

  /** The `for key in telemetry_dict.keys(): if ...: continue` loop, with
      the append replaced by collecting the key. */
  method SelectColumnKeys(keys: seq<string>, skip: seq<string>) returns (columns: seq<string>)
    ensures columns == ColumnKeys(keys, skip)
  {
    columns := [];
    for i := 0 to |keys|
      invariant columns == ColumnKeys(keys[..i], skip)
    {
      assert keys[..i + 1][..i] == keys[..i];
      var key := keys[i];
      var matched := false;
      for j := 0 to |ALLOWED_DATA_TYPE_SUFFIXES|
        invariant matched <==> (exists s :: 0 <= s < j
                                 && EndsWith(key, ALLOWED_DATA_TYPE_SUFFIXES[s]) && |ALLOWED_DATA_TYPE_SUFFIXES[s]| > 0)
      {
        if EndsWith(key, ALLOWED_DATA_TYPE_SUFFIXES[j]) && |ALLOWED_DATA_TYPE_SUFFIXES[j]| > 0 {
          matched := true;
        }
      }
      if key in skip || !matched {
        continue;
      }
      columns := columns + [key];
    }
    assert keys[..|keys|] == keys;
  }

  /** A key is written exactly when it is visited and passes the filter,
      and the last visited key, when it passes, is the last written. */
  lemma {:induction false} ColumnKeysExactly(keys: seq<string>, skip: seq<string>)
    ensures forall k :: k in ColumnKeys(keys, skip) <==> k in keys && IsColumnKey(k, skip)
    ensures |ColumnKeys(keys, skip)| <= |keys|
    ensures |keys| > 0 && IsColumnKey(keys[|keys| - 1], skip) ==>
      ColumnKeys(keys, skip)[|ColumnKeys(keys, skip)| - 1] == keys[|keys| - 1]
    decreases |keys|
  {
    if |keys| > 0 {
      var init := keys[..|keys| - 1];
      ColumnKeysExactly(init, skip);
      assert keys == init + [keys[|keys| - 1]];
    }
  }

  /** The filter keeps the visiting order: filtering a concatenation is
      the concatenation of the filtered parts, and a single key is kept
      exactly when it passes. With `ColumnKeysExactly` this fixes the
      result as the order-preserving filter of the visited keys. */
  lemma {:induction false} ColumnKeysKeepOrder(a: seq<string>, b: seq<string>, skip: seq<string>)
    ensures ColumnKeys(a + b, skip) == ColumnKeys(a, skip) + ColumnKeys(b, skip)
    ensures |b| == 1 ==> ColumnKeys(b, skip) == (if IsColumnKey(b[0], skip) then b else [])
    decreases |b|
  {
    if |b| == 0 {
      assert a + b == a;
    } else {
      var init := b[..|b| - 1];
      assert (a + b)[..|a + b| - 1] == a + init;
      assert (a + b)[|a + b| - 1] == b[|b| - 1];
      ColumnKeysKeepOrder(a, init, skip);
      if |b| == 1 {
        assert init == [];
      }
    }
  }

  lemma NoAllowedSuffix(key: string)
    requires forall i :: 0 <= i < |ALLOWED_DATA_TYPE_SUFFIXES| ==> !EndsWith(key, ALLOWED_DATA_TYPE_SUFFIXES[i])
    ensures !HasAllowedSuffix(key)
  {
  }

  /** None of the required or ignored keys carries a data-type suffix, so
      skipping them changes nothing: the suffix test alone decides. */
  lemma SkipListsRedundant(key: string)
    ensures key in REQUIRED_KEYS ==> !HasAllowedSuffix(key)
    ensures key in IGNORE_KEYS ==> !HasAllowedSuffix(key)
    ensures IsColumnKey(key, REQUIRED_KEYS) <==> HasAllowedSuffix(key)
    ensures IsColumnKey(key, IGNORE_KEYS) <==> HasAllowedSuffix(key)
  {
    if key in REQUIRED_KEYS || key in IGNORE_KEYS {
      assert key[|key| - 1] !in {'4', 'r', 'l', 'e'};
      forall i | 0 <= i < |ALLOWED_DATA_TYPE_SUFFIXES|
        ensures !EndsWith(key, ALLOWED_DATA_TYPE_SUFFIXES[i])
      {
        var s := ALLOWED_DATA_TYPE_SUFFIXES[i];
        assert s[|s| - 1] in {'4', 'r', 'l', 'e'};
      }
      NoAllowedSuffix(key);
    }
  }
}
