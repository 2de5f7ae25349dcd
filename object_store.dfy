/** The S3 bucket the object-store lock runs on, reduced to the three
    conditional requests the lock makes. Each request is one atomic step on
    a map from key to object. As in S3, an object's ETag is computed by the
    service from the object's content; two puts of the same body produce
    the same ETag. A constant table of faults makes a given request on a
    given key raise a given error. */
module ObjectStore {
  import opened Wrappers
  import opened Text

  datatype S3Call = PutCall | HeadCall | DeleteCall

  /** `botocore.exceptions.ClientError` with its HTTP status, or any other
      exception the client raises. */
  datatype S3Error = ClientError(status: int) | TransportError

  datatype S3Object = S3Object(body: string)

  /** A snapshot of the bucket. */
  datatype Bucket = Bucket(objects: map<string, S3Object>)

  type S3Faults = map<(S3Call, string), S3Error>

  function S3Fault(faults: S3Faults, call: S3Call, key: string): Option<S3Error>
  {
    if (call, key) in faults then Some(faults[(call, key)]) else None
  }

  /** The entity tag the service computes for a body, without the
      surrounding quotes: a symbolic stand-in for the MD5 digest of the
      content, so that equal bodies have equal ETags. */
  function ETag(body: string): (t: string)
    ensures |t| > 0 && t[0] != '"' && t[|t| - 1] != '"'
  {
    "md5(" + body + ")"
  }

  /** Different bodies have different ETags (digest collisions are not
      modelled). */
  lemma ETagInjective(b1: string, b2: string)
    requires ETag(b1) == ETag(b2)
    ensures b1 == b2
  {
    var t := ETag(b1);
    assert |b1| == |b2|;
    assert b1 == t[4..|t| - 1] == b2;
  }

  /** The ETag as the service sends it, in double quotes. */
  function Quoted(t: string): string
  {
    "\"" + t + "\""
  }

  /** `put_object(..., IfNoneMatch='*')`: write only if the key is absent
      (412 Precondition Failed otherwise); returns the new bucket and the
      quoted ETag. */
  function PutIfAbsentOp(b: Bucket, faults: S3Faults, key: string, body: string): Result<(Bucket, string), S3Error>
  {
    if S3Fault(faults, PutCall, key).Some? then Err(S3Fault(faults, PutCall, key).value)
    else if key in b.objects then Err(ClientError(412))
    else Ok((Bucket(b.objects[key := S3Object(body)]), Quoted(ETag(body))))
  }

  /** `head_object(..., IfMatch=etag)`: 404 when the key is absent, 412 when
      the object's ETag differs from the one given (quotes ignored). */
  function HeadIfMatchOp(b: Bucket, faults: S3Faults, key: string, ifMatch: string): Result<S3Object, S3Error>
  {
    if S3Fault(faults, HeadCall, key).Some? then Err(S3Fault(faults, HeadCall, key).value)
    else if key !in b.objects then Err(ClientError(404))
    else if Strip(ifMatch, {'"'}) != ETag(b.objects[key].body) then Err(ClientError(412))
    else Ok(b.objects[key])
  }

  /** `delete_object`: remove the key (deleting an absent key succeeds). */
  function DeleteOp(b: Bucket, faults: S3Faults, key: string): Result<Bucket, S3Error>
  {
    if S3Fault(faults, DeleteCall, key).Some? then Err(S3Fault(faults, DeleteCall, key).value)
    else Ok(b.(objects := b.objects - {key}))
  }

  /** A put stores the body at the key and nothing else, and the ETag it
      returns, stripped of its quotes, is the ETag of that body: it matches
      no stored object with a different body. */
  lemma PutFresh(b: Bucket, faults: S3Faults, key: string, body: string)
    requires PutIfAbsentOp(b, faults, key, body).Ok?
    ensures var (post, etag) := PutIfAbsentOp(b, faults, key, body).value;
      && key !in b.objects
      && post.objects == b.objects[key := S3Object(body)]
      && Strip(etag, {'"'}) == ETag(body)
      && forall k :: k in b.objects && b.objects[k].body != body ==> ETag(b.objects[k].body) != Strip(etag, {'"'})
  {
    StripWrapped(ETag(body), '"');
    forall k | k in b.objects && b.objects[k].body != body
      ensures ETag(b.objects[k].body) != ETag(body)
    {
      if ETag(b.objects[k].body) == ETag(body) {
        ETagInjective(b.objects[k].body, body);
      }
    }
  }

  /** The bucket as the lock sees it: one object whose map every request
      reads and updates in place. */
  class ObjectStore {
    var objects: map<string, S3Object>
    const faults: S3Faults

    function State(): Bucket
      reads this
    {
      Bucket(objects)
    }

    constructor (initial: Bucket, faults: S3Faults)
      ensures State() == initial && this.faults == faults
    {
      objects := initial.objects;
      this.faults := faults;
    }

    method PutIfAbsent(key: string, body: string) returns (r: Result<string, S3Error>)
      modifies this
      ensures var op := PutIfAbsentOp(old(State()), faults, key, body);
        && (op.Ok? ==> r == Ok(op.value.1) && State() == op.value.0)
        && (op.Err? ==> r == Err(op.error) && State() == old(State()))
    {
      if (PutCall, key) in faults {
        return Err(faults[(PutCall, key)]);
      }
      if key in objects {
        return Err(ClientError(412));
      }
      objects := objects[key := S3Object(body)];
      r := Ok(Quoted(ETag(body)));
    }

    method HeadIfMatch(key: string, ifMatch: string) returns (r: Result<S3Object, S3Error>)
      ensures r == HeadIfMatchOp(State(), faults, key, ifMatch)
    {
      if (HeadCall, key) in faults {
        return Err(faults[(HeadCall, key)]);
      }
      if key !in objects {
        return Err(ClientError(404));
      }
      if Strip(ifMatch, {'"'}) != ETag(objects[key].body) {
        return Err(ClientError(412));
      }
      r := Ok(objects[key]);
    }

    method Delete(key: string) returns (err: Option<S3Error>)
      modifies this
      ensures var op := DeleteOp(old(State()), faults, key);
        && (op.Ok? ==> err == None && State() == op.value)
        && (op.Err? ==> err == Some(op.error) && State() == old(State()))
    {
      if (DeleteCall, key) in faults {
        return Some(faults[(DeleteCall, key)]);
      }
      objects := objects - {key};
      err := None;
    }
  }
}
