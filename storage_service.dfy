/** Cloud Storage object addressing: the `gs://bucket/path` URIs that
    uploads return and that signed URLs and deletes take back. The
    bucket client is a store of blobs keyed by (bucket, path). */
module StorageService {
  import opened Wrappers

  type Bytes = seq<bv8>

  const SCHEME: string := "gs://"

  /** The first index of `c` in `s`. */
  function FirstIndex(s: string, c: char): (r: Option<nat>)
    ensures r.Some? ==> r.value < |s| && s[r.value] == c && c !in s[..r.value]
    ensures r.None? <==> c !in s
  {
    if s == [] then None
    else if s[0] == c then Some(0)
    else match FirstIndex(s[1..], c)
      case None => None
      case Some(k) =>
        assert s[..k + 1] == [s[0]] + s[1..][..k];
        Some(k + 1)
  }

  /** The URI `upload_file` returns. */
  function UploadUri(bucket: string, path: string): string {
    SCHEME + bucket + "/" + path
  }

  /** `_parse_gcs_uri`, the match of `^gs://([^/]+)/(.+)$`: the bucket
      runs up to the first '/' after the scheme and must not be empty;
      the path is the rest, non-empty and without a newline, except that
      `$` also matches before one final newline, which is then not part
      of the path. No match raises `ValueError`. */
  function ParseGcsUri(uri: string): (r: Result<(string, string), string>)
    ensures r.Err? ==> r.error == "Invalid GCS URI: " + uri
  {
    if |uri| < |SCHEME| || uri[..|SCHEME|] != SCHEME then Err("Invalid GCS URI: " + uri)
    else
      var rest := uri[|SCHEME|..];
      match FirstIndex(rest, '/')
      case None => Err("Invalid GCS URI: " + uri)
      case Some(k) =>
        var tail := rest[k + 1..];
        var path := if tail != [] && tail[|tail| - 1] == '\n' then tail[..|tail| - 1] else tail;
        if k == 0 || path == [] || '\n' in path then Err("Invalid GCS URI: " + uri)
        else Ok((rest[..k], path))
  }

  /** A bucket name the pattern accepts and a path it reproduces. */
  predicate ValidBucket(bucket: string) { bucket != [] && '/' !in bucket }
  predicate ValidPath(path: string) { path != [] && '\n' !in path }

  /** What an accepted URI is: the scheme, a valid bucket, '/', a valid
      path, and at most one trailing newline. */
  lemma ParsedShape(uri: string)
    requires ParseGcsUri(uri).Ok?
    ensures var (bucket, path) := ParseGcsUri(uri).value;
            ValidBucket(bucket) && ValidPath(path) &&
            (uri == UploadUri(bucket, path) || uri == UploadUri(bucket, path) + "\n")
  {
    var rest := uri[|SCHEME|..];
    var k := FirstIndex(rest, '/').value;
    var bucket, tail := rest[..k], rest[k + 1..];
    SplitAtSlash(uri, k);
    if tail != [] && tail[|tail| - 1] == '\n' {
      DropNewline(bucket, tail);
    }
  }

  /** An accepted URI is the upload URI of its two halves. */
  lemma SplitAtSlash(uri: string, k: nat)
    requires |SCHEME| <= |uri| && uri[..|SCHEME|] == SCHEME
    requires |SCHEME| + k < |uri| && uri[|SCHEME| + k] == '/'
    ensures uri == UploadUri(uri[|SCHEME|..][..k], uri[|SCHEME|..][k + 1..])
  {
    var rest := uri[|SCHEME|..];
    assert uri == SCHEME + rest;
    assert rest == (rest[..k] + "/") + rest[k + 1..];
  }

  /** A final newline of the tail is a newline after the upload URI. */
  lemma DropNewline(bucket: string, tail: string)
    requires tail != [] && tail[|tail| - 1] == '\n'
    ensures UploadUri(bucket, tail) == UploadUri(bucket, tail[..|tail| - 1]) + "\n"
  {
    assert tail == tail[..|tail| - 1] + "\n";
  }

  /** Round trip: the URI of an upload parses back to its bucket and
      path; a path may contain '/' of its own. */
  lemma UploadUriParses(bucket: string, path: string)
    requires ValidBucket(bucket) && ValidPath(path)
    ensures ParseGcsUri(UploadUri(bucket, path)) == Ok((bucket, path))
  {
    var uri := UploadUri(bucket, path);
    assert uri[..|SCHEME|] == SCHEME;
    var rest := uri[|SCHEME|..];
    assert rest == bucket + "/" + path;
    SlashAfterBucket(bucket, path);
    assert rest[..|bucket|] == bucket;
    assert rest[|bucket| + 1..] == path;
    assert path[|path| - 1] != '\n' by {
      assert path[|path| - 1] in path;
    }
  }

  lemma SlashAfterBucket(bucket: string, path: string)
    requires '/' !in bucket
    ensures FirstIndex(bucket + "/" + path, '/') == Some(|bucket|)
  {
    var s := bucket + "/" + path;
    assert s[|bucket|] == '/';
    assert s[..|bucket|] == bucket;
  }

  /** A single trailing newline after an upload URI is accepted too. */
  lemma TrailingNewlineAccepted(bucket: string, path: string)
    requires ValidBucket(bucket) && ValidPath(path)
    ensures ParseGcsUri(UploadUri(bucket, path) + "\n") == Ok((bucket, path))
  {
    var uri := UploadUri(bucket, path) + "\n";
    assert uri[..|SCHEME|] == SCHEME;
    var rest := uri[|SCHEME|..];
    assert rest == bucket + "/" + (path + "\n");
    SlashAfterBucket(bucket, path + "\n");
    assert rest[..|bucket|] == bucket;
    var tail := rest[|bucket| + 1..];
    assert tail == path + "\n";
    assert tail[..|tail| - 1] == path;
  }

  /** Another scheme is refused. */
  lemma OtherSchemeRejected()
    ensures ParseGcsUri("s3://b/p").Err?
  {
    assert ("s3://b/p")[0] == 's';
  }

  /** An empty bucket is refused. */
  lemma EmptyBucketRejected(path: string)
    ensures ParseGcsUri(SCHEME + "/" + path).Err?
  {
    var uri := SCHEME + "/" + path;
    assert uri[..|SCHEME|] == SCHEME;
    assert uri[|SCHEME|..] == "/" + path;
  }

  /** A bucket with nothing after it, or with an empty path, is refused. */
  lemma MissingPathRejected(bucket: string)
    requires '/' !in bucket
    ensures ParseGcsUri(SCHEME + bucket).Err?
    ensures ParseGcsUri(SCHEME + bucket + "/").Err?
  {
    var u1 := SCHEME + bucket;
    assert u1[..|SCHEME|] == SCHEME && u1[|SCHEME|..] == bucket;
    var u2 := SCHEME + bucket + "/";
    assert u2[..|SCHEME|] == SCHEME && u2[|SCHEME|..] == bucket + "/" + "";
    SlashAfterBucket(bucket, "");
  }

  /** The object store behind the client: blob contents and content
      types by (bucket, path). */
  class Storage {
    var blobs: map<(string, string), (Bytes, string)>

    constructor ()
      ensures blobs == map[]
    {
      blobs := map[];
    }

    /** `upload_file`: stores the bytes and returns the object's URI. */
    method UploadFile(bucket: string, path: string, content: Bytes, contentType: string) returns (uri: string)
      modifies this
      ensures blobs == old(blobs)[(bucket, path) := (content, contentType)]
      ensures uri == UploadUri(bucket, path)
      ensures ValidBucket(bucket) && ValidPath(path) ==> ParseGcsUri(uri) == Ok((bucket, path))
    {
      blobs := blobs[(bucket, path) := (content, contentType)];
      uri := UploadUri(bucket, path);
      if ValidBucket(bucket) && ValidPath(path) {
        UploadUriParses(bucket, path);
      }
    }

    /** `delete_file`: the URI is parsed first, so a malformed one fails
        with nothing deleted; otherwise the blob is removed when it exists
        and the answer says whether it did. */
    method DeleteFile(uri: string) returns (r: Result<bool, string>)
      modifies this
      ensures ParseGcsUri(uri).Err? ==> r == Err(ParseGcsUri(uri).error) && blobs == old(blobs)
      ensures ParseGcsUri(uri).Ok? ==>
                r == Ok(ParseGcsUri(uri).value in old(blobs)) &&
                blobs == old(blobs) - {ParseGcsUri(uri).value}
    {
      var parsed := ParseGcsUri(uri);
      if parsed.Err? {
        return Err(parsed.error);
      }
      var key := parsed.value;
      if key in blobs {
        blobs := blobs - {key};
        return Ok(true);
      }
      return Ok(false);
    }
  }

  /** `generate_signed_url`: the URI is parsed before anything else;
      `sign` is the signing of a bucket and path. */
  function SignedUrl(uri: string, sign: (string, string) -> string): (r: Result<string, string>)
    ensures r.Err? <==> ParseGcsUri(uri).Err?
    ensures r.Ok? ==> r.value == sign(ParseGcsUri(uri).value.0, ParseGcsUri(uri).value.1)
  {
    match ParseGcsUri(uri)
    case Err(e) => Err(e)
    case Ok((bucket, path)) => Ok(sign(bucket, path))
  }

  /** Uploading and then deleting by the returned URI removes the blob. */
  method UploadThenDelete(storage: Storage, bucket: string, path: string, content: Bytes)
    returns (r: Result<bool, string>)
    requires ValidBucket(bucket) && ValidPath(path)
    modifies storage
    ensures r == Ok(true) && (bucket, path) !in storage.blobs
  {
    var uri := storage.UploadFile(bucket, path, content, "application/octet-stream");
    r := storage.DeleteFile(uri);
  }
}
