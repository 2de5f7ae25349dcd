/** `str_as_bool`: reading a flag from an environment variable. The same
    function appears in libs/serverless_otel/common/env_utils.py and in
    ingest_lambda/env_utils.py; the model has one definition. A missing
    variable is `None`. */
module EnvUtils {
  import opened Wrappers
  import opened Text

  const TRUTHY_VALUES: seq<string> := ["true", "1", "yes", "on"]
  const FALSY_VALUES: seq<string> := ["false", "0", "no", "off"]

  /** The lower-cased value names a boolean. */
  predicate Recognised(val: string)
  {
    Lower(val) in TRUTHY_VALUES || Lower(val) in FALSY_VALUES
  }

  function StrAsBool(val: Option<string>, default: Option<bool> := None): (r: Option<bool>)
    ensures val.None? || |val.value| == 0 ==> r == default
    ensures val.Some? && Lower(val.value) in TRUTHY_VALUES ==> r == Some(true)
    ensures val.Some? && Lower(val.value) in FALSY_VALUES ==> r == Some(false)
    ensures val.Some? && !Recognised(val.value) ==> r == default
    ensures r != default ==> val.Some? && Recognised(val.value) && r == Some(Lower(val.value) in TRUTHY_VALUES)
  {
    if val.None? || |val.value| == 0 then default
    else if Lower(val.value) in TRUTHY_VALUES then Some(true)
    else if Lower(val.value) in FALSY_VALUES then Some(false)
    else default
  }

  /** No spelling is both truthy and falsy, so the order of the two tests
      does not matter. */
  lemma ValuesDisjoint(s: string)
    ensures !(s in TRUTHY_VALUES && s in FALSY_VALUES)
  {
  }

  /** The answer depends only on the lower-cased value. */
  lemma StrAsBoolCaseInsensitive(val: string, default: Option<bool>)
    ensures StrAsBool(Some(val), default) == StrAsBool(Some(Lower(val)), default)
  {
    LowerIdempotent(val);
  }

  /** With no default, a present value gives an answer exactly when it is
      one of the eight spellings, in any case. */
  lemma StrAsBoolDecides(val: string)
    ensures StrAsBool(Some(val)).Some? <==> Recognised(val)
    ensures StrAsBool(Some(val)) == Some(true) <==> Lower(val) in TRUTHY_VALUES
    ensures StrAsBool(Some(val)) == Some(false) <==> Lower(val) in FALSY_VALUES
  {
    if Lower(val) in TRUTHY_VALUES {
      ValuesDisjoint(Lower(val));
    }
  }
}
