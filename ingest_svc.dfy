/** The ingest service handler (services/ingest_svc/lambda_function.py):
    the storage and mutex switches it reads from the environment, and the
    segment it files a record under. Its `_body_to_dict` is
    `RequestBody.BodyToDict` with no correlation-id limit, and its key
    filter is `ColumnFilter.SelectColumnKeys` over the required keys. */
module IngestService {
  import opened Wrappers
  import opened Text
  import opened RequestBody
  import opened EnvUtils
  import IngestPayload
  import SegmentIdentifier
  import Units

  /** The process environment, as `os.getenv` sees it. */
  type Env = map<string, string>

  /** `os.getenv(name, default)`. */
  function GetEnv(env: Env, name: string, default: string): string
  {
    if name in env then env[name] else default
  }

  /** The four module-level switches, each an `Optional[bool]` from
      `str_as_bool` (no default). */
  datatype Switches = Switches(useFilesystemMutex: Option<bool>, useS3Mutex: Option<bool>,
                               useSqliteStorage: Option<bool>, useColumnfileStorage: Option<bool>)

  function ReadSwitches(env: Env): Switches
  {
    Switches(StrAsBool(Some(GetEnv(env, "USE_FILESYSTEM_MUTEX", "True"))),
             StrAsBool(Some(GetEnv(env, "USE_S3_MUTEX", "False"))),
             StrAsBool(Some(GetEnv(env, "USE_SQLITE_STORAGE", "True"))),
             StrAsBool(Some(GetEnv(env, "USE_COLUMNFILE_STORAGE", "False"))))
  }

  /** `if flag:` on an `Optional[bool]`: only `True` takes the branch. */
  predicate Enabled(flag: Option<bool>)
  {
    flag == Some(true)
  }

  /** With none of the four variables set, the file-system mutex and the
      SQLite store are on and the object-store mutex and column files are
      off. */
  lemma SwitchDefaults(env: Env)
    requires "USE_FILESYSTEM_MUTEX" !in env && "USE_S3_MUTEX" !in env
    requires "USE_SQLITE_STORAGE" !in env && "USE_COLUMNFILE_STORAGE" !in env
    ensures ReadSwitches(env) == Switches(Some(true), Some(false), Some(true), Some(false))
  {
    assert Lower("True") == "true";
    assert Lower("False") == "false";
  }

  /** A switch whose variable is set is on exactly when the value is a
      truthy spelling: any other value, including an empty or unrecognised
      one, turns off even a switch that defaults to on. */
  lemma SwitchFollowsVariable(env: Env)
    ensures "USE_FILESYSTEM_MUTEX" in env ==>
      (Enabled(ReadSwitches(env).useFilesystemMutex) <==> Lower(env["USE_FILESYSTEM_MUTEX"]) in TRUTHY_VALUES)
    ensures "USE_S3_MUTEX" in env ==>
      (Enabled(ReadSwitches(env).useS3Mutex) <==> Lower(env["USE_S3_MUTEX"]) in TRUTHY_VALUES)
    ensures "USE_SQLITE_STORAGE" in env ==>
      (Enabled(ReadSwitches(env).useSqliteStorage) <==> Lower(env["USE_SQLITE_STORAGE"]) in TRUTHY_VALUES)
    ensures "USE_COLUMNFILE_STORAGE" in env ==>
      (Enabled(ReadSwitches(env).useColumnfileStorage) <==> Lower(env["USE_COLUMNFILE_STORAGE"]) in TRUTHY_VALUES)
  {
    forall name | name in env
      ensures StrAsBool(Some(env[name])) == Some(true) <==> Lower(env[name]) in TRUTHY_VALUES
    {
      StrAsBoolDecides(env[name]);
    }
  }

  /** `make_segment_identifier(int(telemetry_dict['timestamp-ns']))` with
      the function's default width: the segment of an accepted body is the
      fifteen-minute bucket of its own timestamp, of `timestamp-ms` * 10^6
      when that field was sent. SEGMENT_BUCKET_SIZE_MINUTES plays no part. */
  lemma SegmentFromPayload(body: string)
    requires Normalise(BodyPairs(body), None).Ok?
    ensures var kv := BodyPairs(body);
      var id := IngestPayload.PayloadSegment(Normalise(kv, None).value, SegmentIdentifier.DEFAULT_SEGMENT_SIZE_MINS);
      var ns := if TIMESTAMP_MS in kv then ParseInt(kv[TIMESTAMP_MS]).value * Units.NS_PER_MS
                else ParseInt(kv[TIMESTAMP_NS]).value;
      id == Some(SegmentIdentifier.MakeSegmentIdentifier(ns, 15))
  {
    IngestPayload.PayloadSegmentBucket(body, None, SegmentIdentifier.DEFAULT_SEGMENT_SIZE_MINS);
  }
}
