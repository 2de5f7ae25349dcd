# serverless-otel ingest core, modelled in Dafny

serverless-otel ingests OpenTelemetry records through AWS Lambda handlers.
It appends them to column files on a shared NFS mount, grouped by dataset
and by time segment. This project models the logic those handlers share
and proves properties about it.

**Segment locks.** Before writing to a segment, a handler takes an
exclusive lock on it. There are three generations of the lock:

- **Symlink lock.** The library's `nfs_mutex` and its earlier copy
  `ingest_lambda/filesystem_mutex.py`. An instance holds the lock while
  `<segment>.lck` is a symbolic link to its own `<instance>.lck`.
- **Hard-link lock.** `ingest-lambda/nfs_locks.py`, the same scheme with
  `os.link`.
- **Object-store lock.** The library's `s3_mutex` and its earlier copy
  `ingest_lambda/s3_mutex.py`. An instance holds the lock while the object
  `<dataset_id>/<segment>` exists with the ETag its conditional put
  (`IfNoneMatch='*'`) returned.

How the locks are modelled:

- The shared filesystem is the class `Posix.FileSystem`. It holds a map
  from path to entry: directory, regular file (by inode) or symbolic link.
- The bucket is the class `ObjectStore.ObjectStore`. It holds a map from
  key to object body. The ETag is a function of the body alone, as S3's
  MD5-based ETag of a single-part upload is.
- Each `os` or S3 call is one atomic method, proved equal to a function on
  snapshots (`SymlinkOp`, `PutIfAbsentOp`, ...).
- A constant fault table makes any call on any path fail with a chosen
  error, so every error branch of the protocols can be reached.
- The injected clock `utc_nanos` is the finite sequence of readings one
  call takes from it. Its last reading is past the deadline, so every retry
  loop ends.
- Each protocol step is a function on snapshots (`LockRun`, `UnlockRun`,
  ...). The methods that run the step on the store are proved to agree
  with it, and the lemmas state what the protocol promises:
  - success only when the lock was absent;
  - mutual exclusion;
  - timeout;
  - only the recorded holder can release;
  - failed calls change nothing.

**Request bodies.** `_body_to_dict` turns `key=value` lines into a
dictionary and checks the required fields in a fixed order. Four copies
normalise `timestamp-ns` and `timestamp-ms` against each other; the oldest
copy only checks a single `timestamp`. The module `RequestBody` holds:

- the line loop (`CollectPairs`);
- the normalising check (`BodyToDict`, specified by `Normalise`);
- the presence-only check (`RawBodyToDict`, specified by `ValidateRaw`).

One module per handler file instantiates them with that file's limits.

**Segment identifiers.** `make_segment_identifier` truncates a nanosecond
timestamp to its time bucket and names the segment `segment-<start>`. The
`_make_segment_identifier` copies in ingest_lambda/lambda_function.py:194-197,
ingest_lambda/ingest_lambda.py:187-190 and ingest-lambda/ingest_lambda.py:72-75
compute the same expression with the bucket width from their configuration.
All of them are modelled by `SegmentIdentifier.MakeSegmentIdentifier`.

**Helpers.** The project also models:

- the column-key filter of the handlers;
- the fixed-width column line (`ljust` padding);
- `str_as_bool`, which reads the feature switches.

## Model

| member | source | states |
|---|---|---|
| `Text.JoinSplit` | services/ingest_svc/lambda_function.py:213-214 | joining the pieces of `str.split(sep)` with `sep` gives back the string |
| `Text.SplitLength` | services/ingest_svc/lambda_function.py:214-216 | `split(sep)` yields one more piece than there are separators |
| `Text.ParseIntToString` | services/ingest_svc/lambda_function.py:239-240 | `int(str(n)) == n` for every integer, so the written-back timestamps parse again |
| `Text.IntToStringInjective` | libs/serverless_otel/common/identifier.py:8 | distinct integers have distinct decimal renderings |
| `Text.StripWrapped` | libs/serverless_otel/s3_mutex/mutex.py:74 | `strip('"')` removes exactly the quotes around an ETag whose inside neither starts nor ends with one |
| `Posix.Join` | libs/serverless_otel/nfs_mutex/mutex.py:83 | `os.path.join`: an absolute second part replaces the first; a relative one is appended after a '/' when the first part is non-empty and does not end in '/', and directly otherwise |
| `Posix.StatOp` | libs/serverless_otel/nfs_mutex/mutex.py:92 | a successful stat names an existing path and never returns a symbolic link (it follows one hop) |
| `Posix.StatKept` | libs/serverless_otel/nfs_mutex/mutex.py:92-99 | what `os.path.exists` sees is unchanged by steps that only add entries |
| `Posix.MakeDirsGrows` | libs/serverless_otel/nfs_mutex/mutex.py:92-93 | a successful `os.makedirs` adds exactly the directory and keeps every other entry |
| `Posix.OpenAppendGrows` | libs/serverless_otel/nfs_mutex/mutex.py:99-101 | `open(p, 'a')` keeps every entry and adds at most the file (or the target of a dangling link) |
| `Posix.SymlinkOp` | libs/serverless_otel/nfs_mutex/mutex.py:130 | definition of `os.symlink` on a snapshot: an injected fault, EEXIST when the name is taken, else the name becomes a link; the method `Posix.FileSystem.Symlink` is proved to agree with it |
| `Posix.LinkOp` | ingest-lambda/nfs_locks.py:52 | definition of `os.link` on a snapshot: a fault, a stat error of the source, EPERM for a directory, EEXIST when the name is taken, else a second name for the source's file |
| `Posix.ReadlinkOp` | libs/serverless_otel/nfs_mutex/mutex.py:171 | definition of `os.readlink` on a snapshot: a fault, ENOENT, the target of a link, EINVAL for anything else |
| `Posix.UnlinkOp` | libs/serverless_otel/nfs_mutex/mutex.py:179 | definition of `os.unlink` on a snapshot: a fault, ENOENT, EISDIR for a directory, else the name is removed |
| `Posix.MakeDirsOp` | libs/serverless_otel/nfs_mutex/mutex.py:93 | definition of `os.makedirs` on a snapshot: a fault, EEXIST when the name is taken, else a new directory |
| `Posix.OpenAppendOp` | libs/serverless_otel/nfs_mutex/mutex.py:100-101 | definition of `open(p, 'a')` on a snapshot: an existing file is kept, a missing one (or a dangling link's target) is created empty |
| `Posix.FileSystem.PathExists` | libs/serverless_otel/nfs_mutex/mutex.py:92 | `os.path.exists` is true exactly when stat succeeds on the current state |
| `Posix.FileSystem.Symlink` | libs/serverless_otel/nfs_mutex/mutex.py:130 | `os.symlink` creates the link only when the name is absent (EEXIST otherwise); a failure leaves the filesystem unchanged |
| `Posix.FileSystem.Link` | ingest-lambda/nfs_locks.py:52 | `os.link` gives a regular file a second name only when that name is absent; a failure leaves the filesystem unchanged |
| `Posix.FileSystem.Readlink` | libs/serverless_otel/nfs_mutex/mutex.py:171 | `os.readlink` returns a link's target, ENOENT for a missing name and EINVAL for anything that is not a link |
| `Posix.FileSystem.Unlink` | libs/serverless_otel/nfs_mutex/mutex.py:179 | `os.unlink` removes exactly that name, or fails and changes nothing |
| `Posix.FileSystem.MakeDirs` | libs/serverless_otel/nfs_mutex/mutex.py:93 | `os.makedirs` adds the directory, or fails and changes nothing |
| `Posix.FileSystem.OpenAppend` | libs/serverless_otel/nfs_mutex/mutex.py:100-101 | `open(p, 'a')` creates an empty regular file when none is there, or fails and changes nothing |
| `Clock.FirstExpired` | libs/serverless_otel/nfs_mutex/mutex.py:127 | the first clock reading at which the guard `utc_nanos() - start < deadline` fails; every reading before it passes |
| `LockPaths.SegmentLockdir` | libs/serverless_otel/nfs_mutex/mutex.py:53-54 | the lock directory path ends in the whole `.locks` name |
| `LockPaths.LockdirShape` | ingest-lambda/nfs_locks.py:8-9 | for plain names the lock directory is `<base>/<segment>/.locks` |
| `LockPaths.LockfilesInLockdir` | libs/serverless_otel/nfs_mutex/mutex.py:57-62 | the segment lock file is `<lockdir>/<segment>.lck` and the instance lock file `<lockdir>/<instance>.lck` |
| `LockPaths.LockfilesDistinct` | ingest_lambda/filesystem_mutex.py:44-49 | the two lock files are the same path exactly when the instance is named like the segment |
| `LockPaths.InstanceLockfilesDistinct` | ingest-lambda/nfs_locks.py:16-17 | two instances share a lock file only when they are the same instance |
| `LockPaths.LockfilesNotLockdir` | libs/serverless_otel/nfs_mutex/mutex.py:53-62 | neither lock file is the lock directory |
| `NfsMutex.InitialiseRun` | libs/serverless_otel/nfs_mutex/mutex.py:83-101 | definition of the filesystem step of initialisation; its properties are `InitialiseOnlyAdds`, `InitialiseEstablishes` and `InitialiseKeepsSegmentLockfile` |
| `NfsMutex.LockRun` | libs/serverless_otel/nfs_mutex/mutex.py:110-146 | definition of the lock loop on a snapshot and a clock; its properties are `LockOnlyWhenAbsent`, `LockTimesOut` and `LockExcludes` |
| `NfsMutex.UnlockRun` | libs/serverless_otel/nfs_mutex/mutex.py:153-186 | definition of unlock on a snapshot; its properties are `UnlockOnlyByHolder`, `UnlockWithoutLock` and `LockThenUnlock` |
| `NfsMutex.InitialiseOnlyAdds` | libs/serverless_otel/nfs_mutex/mutex.py:92-101 | initialisation keeps every existing entry unchanged and adds only the lock directory and the instance lock file (or a dangling link's target) |
| `NfsMutex.InitialiseEstablishes` | libs/serverless_otel/nfs_mutex/mutex.py:95-101 | after a successful initialisation the lock directory and the instance lock file exist |
| `NfsMutex.InitialiseKeepsSegmentLockfile` | libs/serverless_otel/nfs_mutex/mutex.py:83-101 | initialisation never creates, removes or changes the segment lock file |
| `NfsMutex.InitialiseStore` | libs/serverless_otel/nfs_mutex/mutex.py:83-101 | the filesystem part of initialisation agrees with `InitialiseRun`: makedirs and open only where `exists` is false, an OSError escapes |
| `NfsMutex.Initialise` | libs/serverless_otel/nfs_mutex/mutex.py:68-103 | a cached key returns with the filesystem untouched; otherwise the filesystem step runs and the key is cached only when it succeeded |
| `NfsMutex.LockOnlyWhenAbsent` | libs/serverless_otel/nfs_mutex/mutex.py:127-132 | the lock is taken iff the deadline has not passed and the segment lock file is absent; it then links to the instance lock file, which is returned; failure changes nothing |
| `NfsMutex.LockTimesOut` | libs/serverless_otel/nfs_mutex/mutex.py:127-146 | the call times out iff the deadline has passed or symlink reports EEXIST; `retry_count` attempts are made, one per reading before the deadline |
| `NfsMutex.LockExcludes` | libs/serverless_otel/nfs_mutex/mutex.py:130-135 | while one instance holds the lock, any instance's lock call times out and changes nothing |
| `NfsMutex.Lock` | libs/serverless_otel/nfs_mutex/mutex.py:110-146 | the retry loop returns the result, final filesystem and try count of `LockRun` |
| `NfsMutex.UnlockOnlyByHolder` | libs/serverless_otel/nfs_mutex/mutex.py:166-179 | unlock succeeds iff the lock names this instance's lock file and the segment lock file links to it; it then removes only that link; failure changes nothing |
| `NfsMutex.UnlockWithoutLock` | libs/serverless_otel/nfs_mutex/mutex.py:153-155 | a missing lock raises SegmentUnlockError before any filesystem call |
| `NfsMutex.LockThenUnlock` | libs/serverless_otel/nfs_mutex/mutex.py:171-180 | unlock with the identifier a lock returned gives back the filesystem the lock started from |
| `NfsMutex.Unlock` | libs/serverless_otel/nfs_mutex/mutex.py:153-186 | the unlock steps agree with `UnlockRun` |
| `FilesystemMutex.Initialise` | ingest_lambda/filesystem_mutex.py:54-66 | initialisation without a cache: the library's filesystem step on every call |
| `FilesystemMutex.Lock` | ingest_lambda/filesystem_mutex.py:72-96 | the retry loop returns the result and final filesystem of the library's `LockRun` |
| `FilesystemMutex.UnlockAgreesWithLibrary` | ingest_lambda/filesystem_mutex.py:108-117 | a missing lock fails with AttributeError before any call; a present lock is treated as the library treats it, so only the holder removes the link |
| `FilesystemMutex.UnlockRun` | ingest_lambda/filesystem_mutex.py:102-121 | definition of this copy's unlock on a snapshot; `UnlockAgreesWithLibrary` relates it to the library's |
| `FilesystemMutex.Unlock` | ingest_lambda/filesystem_mutex.py:102-121 | the unlock steps agree with `UnlockRun` |
| `HardLinkLocks.InitialiseRun` | ingest-lambda/nfs_locks.py:21-37 | definition of initialisation as written; `InitialiseCreatesSegmentLockfile` states what it leaves behind |
| `HardLinkLocks.LockRun` | ingest-lambda/nfs_locks.py:42-58 | definition of the hard-link lock loop; `LockOnlyWhenAbsent` states when it succeeds |
| `HardLinkLocks.UnlockRun` | ingest-lambda/nfs_locks.py:64-76 | definition of unlock as written; `UnlockOnlyByHolder`, `UnlockAfterLockFails` and `UnlockAfterCorrectedLock` state what it does |
| `HardLinkLocks.Release` | ingest-lambda/nfs_locks.py:73-76 | definition of the final unlink, whose OSError becomes the "probably a deadlock" SegmentLockError |
| `HardLinkLocks.LockCorrectedRun` | ingest-lambda/nfs_locks.py:39-58 | definition of the lock loop with `os.symlink`, as the comments describe it; `LockCorrectedOnlyWhenAbsent` states when it succeeds |
| `HardLinkLocks.InitialiseCreatesSegmentLockfile` | ingest-lambda/nfs_locks.py:27-32 | a successful initialisation leaves the segment lock file present and keeps every entry |
| `HardLinkLocks.Initialise` | ingest-lambda/nfs_locks.py:21-37 | initialisation as written agrees with `InitialiseRun` |
| `HardLinkLocks.InitialiseCorrected` | ingest-lambda/nfs_locks.py:34-37 | corrected initialisation: only the lock directory and the instance lock file, as the library does |
| `HardLinkLocks.LockOnlyWhenAbsent` | ingest-lambda/nfs_locks.py:50-56 | the lock is taken iff the deadline has not passed, the segment lock file is absent and the instance lock file is a regular file; every failure is a timeout and changes nothing |
| `HardLinkLocks.Lock` | ingest-lambda/nfs_locks.py:42-58 | the retry loop agrees with `LockRun`; every OSError is retried |
| `HardLinkLocks.LockAfterInitialiseTimesOut` | ingest-lambda/nfs_locks.py:27-56 | after any instance's successful initialisation, every lock call on that segment times out |
| `HardLinkLocks.LockAfterCorrectedInitialise` | ingest-lambda/nfs_locks.py:34-53 | after the corrected initialisation of a fresh segment, a lock call before the deadline takes the lock |
| `HardLinkLocks.Unlock` | ingest-lambda/nfs_locks.py:64-76 | unlock as written agrees with `UnlockRun`: a readlink error escapes; a mismatch raises; otherwise it unlinks |
| `HardLinkLocks.UnlockAfterLockFails` | ingest-lambda/nfs_locks.py:52-70 | after a successful lock, unlock as written fails in readlink (EINVAL unless another fault) and the lock stays |
| `HardLinkLocks.LockCorrectedOnlyWhenAbsent` | ingest-lambda/nfs_locks.py:39-56 | the lock with the symbolic link the comments describe is taken iff the deadline has not passed and the segment lock file is absent; the segment lock file then links to the instance lock file; every failure is a timeout and changes nothing |
| `HardLinkLocks.LockCorrected` | ingest-lambda/nfs_locks.py:42-58 | the corrected retry loop (`os.symlink` in place of `os.link`) agrees with `LockCorrectedRun` |
| `HardLinkLocks.LockCorrectedAfterCorrectedInitialise` | ingest-lambda/nfs_locks.py:34-53 | after the corrected initialisation of a fresh segment, a corrected lock call before the deadline takes the lock |
| `HardLinkLocks.UnlockAfterCorrectedLock` | ingest-lambda/nfs_locks.py:61-76 | after the corrected lock, the unlock as written finds this instance's lock file through `os.readlink`, releases the lock and gives back the filesystem the lock started from |
| `HardLinkLocks.UnlockByOtherRefused` | ingest-lambda/nfs_locks.py:70-71 | while one instance holds the corrected lock, another instance's unlock raises "not owned by instance" and changes nothing |
| `HardLinkLocks.UnlockOnlyByHolder` | ingest-lambda/nfs_locks.py:70-76 | the unlock as written succeeds only when the segment lock file is a symbolic link naming this instance's lock file, and then removes only that name; failure changes nothing |
| `ObjectStore.ETag` | libs/serverless_otel/s3_mutex/mutex.py:61-66 | the ETag of an object depends on its body alone, and is never empty and never begins or ends with a quote |
| `ObjectStore.PutIfAbsentOp` | libs/serverless_otel/s3_mutex/mutex.py:64-70 | definition of `put_object` with `IfNoneMatch='*'` on a snapshot: a fault, 412 when the key is taken, else the object is stored and its quoted ETag returned |
| `ObjectStore.HeadIfMatchOp` | libs/serverless_otel/s3_mutex/mutex.py:104 | definition of `head_object` with `IfMatch` on a snapshot: a fault, 404 for a missing key, 412 for another ETag, the object otherwise |
| `ObjectStore.DeleteOp` | libs/serverless_otel/s3_mutex/mutex.py:115 | definition of `delete_object` on a snapshot: a fault, else the key is removed |
| `ObjectStore.ETagInjective` | libs/serverless_otel/s3_mutex/mutex.py:74 | the ETag determines the body: two objects with the same ETag have the same content |
| `ObjectStore.PutFresh` | libs/serverless_otel/s3_mutex/mutex.py:64-74 | a successful put was made at an absent key, stores exactly the new object there, and returns its ETag in quotes; no stored object with other content carries that ETag |
| `ObjectStore.ObjectStore.PutIfAbsent` | libs/serverless_otel/s3_mutex/mutex.py:64-70 | the put writes only when the key is absent (412 otherwise); a failure changes nothing |
| `ObjectStore.ObjectStore.HeadIfMatch` | libs/serverless_otel/s3_mutex/mutex.py:104 | head with IfMatch: 404 for a missing key, 412 for a different ETag, the object otherwise |
| `ObjectStore.ObjectStore.Delete` | libs/serverless_otel/s3_mutex/mutex.py:115 | delete removes the key, or fails and changes nothing |
| `S3Mutex.LockKey` | libs/serverless_otel/s3_mutex/mutex.py:53 | definition of the key `<dataset_id>/<segment>`; `LockKeyInjective` states it names distinct objects |
| `S3Mutex.LockBody` | libs/serverless_otel/s3_mutex/mutex.py:64-66 | definition of the body `<instance>:<time.time_ns()>`; `LockBodyInjective` states it determines both parts |
| `S3Mutex.LockRun` | libs/serverless_otel/s3_mutex/mutex.py:50-87 | definition of the lock loop on a snapshot and a clock; its properties are `LockOnlyWhenAbsent`, `LockTimesOut` and `LockExcludes` |
| `S3Mutex.ReleaseRun` | libs/serverless_otel/s3_mutex/mutex.py:103-125 | definition of head-then-delete; `ReleaseOnlyByHolder` states when it succeeds |
| `S3Mutex.UnlockRun` | libs/serverless_otel/s3_mutex/mutex.py:90-125 | definition of unlock; `UnlockWithoutLock`, `LockThenUnlock` and `StaleLockRejected` state what it does |
| `S3Mutex.LockKeyInjective` | libs/serverless_otel/s3_mutex/mutex.py:53 | `<dataset_id>/<segment>` names distinct objects for distinct pairs when dataset ids contain no '/' |
| `S3Mutex.LockOnlyWhenAbsent` | libs/serverless_otel/s3_mutex/mutex.py:59-74 | the lock is taken iff the deadline has not passed and the key is absent; the object then holds `<instance>:<ns>` and the returned ETag, unquoted, is its own; failure changes nothing |
| `S3Mutex.LockTimesOut` | libs/serverless_otel/s3_mutex/mutex.py:75-87 | the call times out iff the deadline has passed or the put is refused with 409/412 |
| `S3Mutex.LockExcludes` | libs/serverless_otel/s3_mutex/mutex.py:64-80 | while one instance holds the lock, any instance's lock call times out and changes nothing |
| `S3Mutex.Lock` | libs/serverless_otel/s3_mutex/mutex.py:50-87 | the retry loop returns the result and final bucket of `LockRun` |
| `S3Mutex.ReleaseOnlyByHolder` | libs/serverless_otel/s3_mutex/mutex.py:103-117 | release succeeds iff the object at the key carries the given ETag; it then deletes only that key; failure changes nothing |
| `S3Mutex.Release` | libs/serverless_otel/s3_mutex/mutex.py:103-125 | the head-then-delete steps agree with `ReleaseRun` |
| `S3Mutex.UnlockWithoutLock` | libs/serverless_otel/s3_mutex/mutex.py:98-102 | a missing lock fails with AttributeError before any request and never reaches the SegmentUnlockError meant for it |
| `S3Mutex.LockThenUnlock` | libs/serverless_otel/s3_mutex/mutex.py:93-117 | unlock with the identifier a lock returned deletes the lock object, leaving the objects as before the lock |
| `S3Mutex.StaleLockRejected` | libs/serverless_otel/s3_mutex/mutex.py:104-112 | an identifier from an earlier, released lock cannot release a later holder's lock whose body differs (another instance or another `time.time_ns()` reading); the unlock fails as "not owner" and changes nothing |
| `S3Mutex.StaleLockSameBody` | libs/serverless_otel/s3_mutex/mutex.py:64-66 | the limit of the ETag check: when the later lock object has the same body as the released one, the stale identifier releases it |
| `S3Mutex.LockBodyInjective` | libs/serverless_otel/s3_mutex/mutex.py:66 | `<instance>:<ns>` determines both the instance and the time reading |
| `S3Mutex.Unlock` | libs/serverless_otel/s3_mutex/mutex.py:90-125 | the unlock steps agree with `UnlockRun` |
| `IngestS3Mutex.LockRun` | ingest_lambda/s3_mutex.py:42-57 | definition of this copy's lock loop; `LockOnlyWhenAbsent` states when it succeeds |
| `IngestS3Mutex.UnlockRun` | ingest_lambda/s3_mutex.py:59-77 | definition of this copy's unlock; `UnlockOnlyByHolder` states when it succeeds |
| `IngestS3Mutex.LockOnlyWhenAbsent` | ingest_lambda/s3_mutex.py:46-57 | the lock is taken iff the deadline has not passed and the key is absent; the ETag returned is the new object's; failure changes nothing |
| `IngestS3Mutex.Lock` | ingest_lambda/s3_mutex.py:42-57 | the retry loop agrees with `LockRun` |
| `IngestS3Mutex.UnlockOnlyByHolder` | ingest_lambda/s3_mutex.py:59-77 | a missing lock raises SegmentUnlockError first; otherwise release succeeds iff the object carries the lock's ETag, and deletes only that key |
| `IngestS3Mutex.Unlock` | ingest_lambda/s3_mutex.py:59-77 | the unlock steps agree with `UnlockRun` |
| `SegmentIdentifier.MakeSegmentIdentifier` | libs/serverless_otel/common/identifier.py:6-8 | the identifier is `segment-` followed by at least one more character (its bucket start, see `IdentifierNamesBucket`) |
| `SegmentIdentifier.FloorDiv` | libs/serverless_otel/common/identifier.py:7 | the quotient is the floor of a / b, for either sign of b |
| `SegmentIdentifier.BucketStartIsFloor` | libs/serverless_otel/common/identifier.py:7 | the bucket start is at most the timestamp, less than a width below it, a multiple of the width, and the only such multiple |
| `SegmentIdentifier.IdentifierNamesBucket` | libs/serverless_otel/common/identifier.py:7-8 | the identifier is `segment-` and a decimal that parses back to a multiple of the width within one width at or below the timestamp |
| `SegmentIdentifier.IdentifierIdempotent` | libs/serverless_otel/common/identifier.py:7-8 | feeding the bucket start back in gives the same identifier |
| `SegmentIdentifier.BucketStartMonotone` | libs/serverless_otel/common/identifier.py:7 | later timestamps never fall in earlier buckets |
| `SegmentIdentifier.SameIdentifierIffSameBucket` | libs/serverless_otel/common/identifier.py:7-8 | two timestamps share an identifier iff they fall in the same bucket |
| `EnvUtils.StrAsBool` | libs/serverless_otel/common/env_utils.py:7-28 | None or empty gives the default; a truthy spelling gives True; a falsy one gives False; anything else gives the default; the result differs from the default only for a recognised spelling |
| `EnvUtils.ValuesDisjoint` | libs/serverless_otel/common/env_utils.py:3-4 | no spelling is both truthy and falsy |
| `EnvUtils.StrAsBoolCaseInsensitive` | libs/serverless_otel/common/env_utils.py:22-26 | the result for a value equals the result for its lower-cased form |
| `EnvUtils.StrAsBoolDecides` | ingest_lambda/env_utils.py:6-16 | with no default, a value gives True iff it is a truthy spelling, False iff falsy, and an answer iff recognised |
| `RequestBody.LinePair` | services/ingest_svc/lambda_function.py:214-217 | definition of what one line contributes; `LinePairExactlyOneEquals` states it |
| `RequestBody.Pairs` | services/ingest_svc/lambda_function.py:213-217 | definition of the dictionary the lines build; `PairsKeys` and `PairsLastWins` state it |
| `RequestBody.Normalise` | services/ingest_svc/lambda_function.py:219-245 | definition of the checks and rewrites after the line loop; `NormaliseErrorOrder` and `NormaliseTimestamps` state them |
| `RequestBody.ValidateRaw` | ingest-lambda/lambda.py:92-113 | definition of the presence-only checks of the oldest copy; `ValidateRawAccepts` states them |
| `RequestBody.LinePairExactlyOneEquals` | services/ingest_svc/lambda_function.py:214-217 | a line contributes an entry iff it holds exactly one '='; the key is the lower-cased text before it and the value the text after it |
| `RequestBody.PairsKeys` | services/ingest_svc/lambda_function.py:213-217 | a key is in the dictionary iff some line contributes it |
| `RequestBody.PairsLastWins` | services/ingest_svc/lambda_function.py:216-217 | the value of a key is the one on the last line contributing it |
| `RequestBody.CollectPairs` | services/ingest_svc/lambda_function.py:210-217 | the line loop builds the dictionary `Pairs` of the body's lines |
| `RequestBody.BodyToDict` | services/ingest_svc/lambda_function.py:207-245 | the loop, the checks and the rewrites agree with `Normalise` of the collected dictionary; with no limit this is also the `_body_to_dict` of ingest_lambda/lambda_function.py:210-248 and ingest_lambda/ingest_lambda.py:203-241 |
| `RequestBody.NormaliseErrorOrder` | services/ingest_svc/lambda_function.py:222-243 | each error is raised iff all earlier checks pass and its own fails: dataset-id, timestamp presence, int() (ValueError, not BodyError), correlation-id, width |
| `RequestBody.NormaliseTimestamps` | services/ingest_svc/lambda_function.py:231-240 | on success both timestamps are decimal integers, ms is ns floor-divided by 10^6, a sent `timestamp-ms` wins, and no other entry changes |
| `RequestBody.RawBodyToDict` | ingest-lambda/lambda.py:81-113 | the loop and checks of the oldest copy agree with `ValidateRaw` |
| `RequestBody.ValidateRawAccepts` | ingest-lambda/lambda.py:95-113 | the dictionary comes back unchanged iff dataset-id is present, the timestamp is non-empty and the correlation-id is non-empty within the limit; errors follow the check order |
| `ColumnFilter.ColumnKeys` | services/ingest_svc/lambda_function.py:181-184 | definition of the keys the handler writes, in visiting order; `ColumnKeysExactly` and `ColumnKeysKeepOrder` state them |
| `ColumnFilter.SelectColumnKeys` | services/ingest_svc/lambda_function.py:181-184 | the handler's key loop selects `ColumnKeys`, in visiting order; with the required keys as skip list this is also the loop of ingest_lambda/lambda_function.py:169-172 and ingest-lambda/ingest_lambda.py:52-54 |
| `ColumnFilter.ColumnKeysExactly` | ingest_lambda/ingest_lambda.py:162-167 | a key is written iff it is visited, not skipped and has an allowed suffix; the last visited key, when it passes, is the last written |
| `ColumnFilter.ColumnKeysKeepOrder` | ingest_lambda/ingest_lambda.py:162-167 | filtering distributes over concatenation, so the written keys keep their visiting order; a single key is written alone or not at all |
| `ColumnFilter.SkipListsRedundant` | services/ingest_svc/lambda_function.py:55-59 | no required or ignored key has an allowed suffix, so the suffix test alone decides |
| `FixedWidth.FixedLine` | ingest-lambda/ingest_lambda.py:136 | definition of the fixed-width line; `FixedLineNeverTruncates` and `FixedLineColumns` state its layout |
| `FixedWidth.FixedLineNeverTruncates` | ingest-lambda/ingest_lambda.py:136 | the line starts with the whole timestamp, the correlation-id follows its padded column, and the value starts after the wider of each field and its width |
| `FixedWidth.FixedLineColumns` | ingest-lambda/lambda.py:123 | with fields within their widths the line has fixed columns and each field reads back by dropping its padding |
| `IngestPayload.PayloadSegment` | ingest_lambda/lambda_function.py:64-71 | definition of the segment named by the body's `timestamp-ns`; `PayloadSegmentBucket` states which bucket it is |
| `IngestPayload.PayloadSegmentBucket` | ingest_lambda/lambda_function.py:64-71 | an accepted body always names a segment: that of `timestamp-ms` * 10^6 when sent, else that of `timestamp-ns` |
| `IngestService.ReadSwitches` | services/ingest_svc/lambda_function.py:63-67 | definition of the four switches; `SwitchDefaults` and `SwitchFollowsVariable` state them |
| `IngestService.SegmentFromPayload` | services/ingest_svc/lambda_function.py:75-82 | the segment of an accepted body is the 15-minute bucket of its own timestamp (`timestamp-ms` * 10^6 when sent): the function's default width, whatever SEGMENT_BUCKET_SIZE_MINUTES says |
| `IngestService.SwitchDefaults` | services/ingest_svc/lambda_function.py:63-67 | with none of the four variables set, the file-system mutex and SQLite storage are on, and the S3 mutex and column-file storage are off |
| `IngestService.SwitchFollowsVariable` | services/ingest_svc/lambda_function.py:63-67 | a set variable turns its switch on iff its value is a truthy spelling; any other value turns it off, even for a switch that defaults to on |
| `IngestLambdaFunction.SegmentFromPayload` | ingest_lambda/lambda_function.py:194-197 | the segment is `_make_segment_identifier` of the normalised `timestamp-ns` |
| `IngestLambdaScript.SegmentHoldsPayload` | ingest_lambda/ingest_lambda.py:63-70 | the segment of an accepted body is the bucket holding its nanosecond timestamp |
| `IngestLambdaScript.ColumnKeys` | ingest_lambda/ingest_lambda.py:162-165 | a key is written iff it has an allowed suffix (the required-key test never excludes more) |
| `EarlyIngestLambda.BodyToDict` | ingest-lambda/ingest_lambda.py:87-128 | `_body_to_dict` with the 60-character limit, raised iff every other check passes and the correlation-id is longer |
| `EarlyIngestLambda.SegmentFromStartTime` | ingest-lambda/ingest_lambda.py:36-42 | the segment is `segment-<start>` for the bucket holding the handler's start time; it equals the segment named by the body's own `timestamp-ns` iff the two fall in the same bucket |
| `EarlyIngestLambda.ColumnLine` | ingest-lambda/ingest_lambda.py:131-136 | for an accepted body with a timestamp within 60 columns the line is 121 + len(value) long with the value at column 120 |
| `EarlyLambda.BodyToDict` | ingest-lambda/lambda.py:81-113 | `_body_to_dict` with the 20-character limit returns the parsed dictionary unchanged |
| `EarlyLambda.EmptyDatasetAccepted` | ingest-lambda/lambda.py:95-96 | an empty dataset-id passes here, where the normalising copies reject it |
| `EarlyLambda.ColumnKeys` | ingest-lambda/lambda.py:44-46 | a key is written iff it is not in `__IGNORE_KEYS__` and has an allowed suffix |
| `EarlyLambda.ColumnLine` | ingest-lambda/lambda.py:116-123 | for an accepted body with a timestamp within 20 columns the value starts at column 40 |

## Left out

- Lambda handler bodies are not modelled: SQLite, OpenTelemetry spans,
  HTTP status codes, column-file appends and `print`. Only the steps
  before any I/O are kept: the parse, the segment choice and the key
  filter.
- CSV formatting through `csv.writer` in ingest_lambda/lambda_function.py
  and ingest_lambda/ingest_lambda.py is left out; its quoting rules belong
  to the library.
- boto3 client construction (`lazy_initialise_s3`, `initialise_s3`) is not
  modelled. The object store is an abstract bucket.
- Real concurrency, network atomicity and `time.sleep`: each store call is
  one atomic step, and interleavings are not modelled. `delay` has no
  effect on the model.
- The `max_age` expiry of `initialisation_cache` is not modelled. The
  cache is a set that only grows.
- The S3 `Tagging` and `Expires` arguments of `put_object` are not
  modelled. The `head is None` test is unreachable, since `head_object`
  returns a dictionary or raises.
- `s3_initialise_segment_locks` is a no-op in both copies.
- `time.time_ns()` in the lock object's body is the parameter `wallNs`.
- Parent directories are not tracked by the filesystem model. `os.stat`
  follows one symbolic link hop; a link to a link is ELOOP.
- The constants module is not part of this model. `NS_PER_MS`, `NS_PER_S`
  and `NS_PER_MIN` / `NS_PER_MINUTE` take their standard values.
- `str.lower()` and `int()` are modelled for ASCII text only. `int()`
  accepts surrounding whitespace, a sign and digits with single
  underscores.
- Dictionary insertion order is not modelled: the key filter takes the
  visiting order as a sequence.
- `_get_segment_identifier` of ingest-lambda/lambda.py is left out. It
  uses `datetime`, local time and floating point.
- `SegmentIdentifier.FloorDiv`: `math.floor(a / b)` is modelled with an
  exact quotient. Python's float division can round across a bucket
  boundary for nanosecond values above 2^53.
- `RequestBody.NormaliseTimestamps`: milliseconds from nanoseconds are
  taken as exact floor division, which differs from the float
  `math.floor(ns / NS_PER_MS)` in the same way.
- `SegmentIdentifier.MakeSegmentIdentifier` requires a non-zero bucket
  width. Python raises ZeroDivisionError there.
- `HardLinkLocks.Lock`: `time.time()` is a float clock in seconds. It is
  modelled as a sequence of integer readings.
- The storage switches (`USE_SQLITE_STORAGE`, `USE_COLUMNFILE_STORAGE`)
  are read by `IngestService.ReadSwitches`; the storage paths they choose
  are I/O and are not modelled.
- `ObjectStore.ETag`: S3 computes the ETag of a single-part upload as the
  MD5 digest of the body. The model uses an injective function of the body
  instead, so MD5 collisions are not modelled.
- `IngestService.SegmentFromPayload` follows
  services/ingest_svc/lambda_function.py:82, which calls
  `make_segment_identifier` with its default of 15 minutes. The setting
  SEGMENT_BUCKET_SIZE_MINUTES that the file reads at line 70 has no effect
  on the segment, and the model gives it none.
- The call of `lock_segment` at ingest-lambda/ingest_lambda.py:50 passes the
  clock function `__UTC_NOW_NANOS__` (line 10) as the `timeout` argument.
  Python then raises TypeError at the first comparison of
  ingest-lambda/nfs_locks.py:50, before any `os.link`, and the handler's
  `except BodyError` and `except SegmentLockError` do not catch it. The model
  takes `timeout` as the integer number of seconds that the signature at
  ingest-lambda/nfs_locks.py:42 declares, so this call is not modelled.

## Findings

| source | as written | input that shows it | evidently intended | confidence | as-written member | corrected member |
|---|---|---|---|---|---|---|
| ingest-lambda/nfs_locks.py:27-32 | `initialise_segment_locks` creates the segment lock file itself as an empty regular file | any segment, after `initialise_segment_locks` by any instance: every `os.link` onto the segment lock file fails with EEXIST, so `lock_segment` raises SegmentLockError at the timeout | initialisation creates only the lock directory and the instance lock file, and leaves the segment lock file to `lock_segment` (as the library's `nfs_initialise_segment_locks` does) | not executed | `HardLinkLocks.LockAfterInitialiseTimesOut` | `HardLinkLocks.LockAfterCorrectedInitialise` |
| ingest-lambda/nfs_locks.py:52 | `lock_segment` takes the lock with `os.link`, a hard link, while `unlock_segment` (line 70) checks the holder with `os.readlink` | after a successful `lock_segment`, the segment lock file is a regular file, so `os.readlink` raises EINVAL and the lock is never released | `lock_segment` creates a symbolic link from the segment lock file to the instance lock file, as the comments at lines 39-41 and 61-62 describe; the unlock as written then releases it | not executed | `HardLinkLocks.UnlockAfterLockFails` | `HardLinkLocks.UnlockAfterCorrectedLock` |
