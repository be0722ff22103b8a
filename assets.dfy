/** Asset staging and lookup: `buildmap` (taskcat/taskcat.py:81-89), the
    upload key and the per-file loop of `s3upload` (155-173) and
    `get_s3_url` (183-194).  The S3 listing (`s3.buckets.all()` and each
    bucket's objects) and the walked file tree (`os.walk`) are inputs;
    each upload is an oracle answer. */
module Assets {
  import opened Common

  /** One bucket of the account, with its object keys in listing order. */
  datatype Bucket = Bucket(name: string, keys: seq<string>)

  const S3Root: string := "https://s3.amazonaws.com/"

  /** The URL `get_s3_url` builds for an object. */
  function ObjectUrl(bucket: string, objKey: string): string
  {
    S3Root + bucket + "/" + objKey
  }

  /** An object `get_s3_url` accepts: the listing is filtered with the
      project as key prefix, then `key in obj.key` is checked. */
  predicate Candidate(project: string, key: string, objKey: string)
  {
    project <= objKey && Contains(objKey, key)
  }

  function FirstInBucket(name: string, objs: seq<string>, project: string, key: string): (r: Option<string>)
    ensures r.Some? ==> S3Root + name + "/" <= r.value
  {
    if objs == [] then None
    else if Candidate(project, key, objs[0]) then Some(ObjectUrl(name, objs[0]))
    else FirstInBucket(name, objs[1..], project, key)
  }

  /** `get_s3_url(key)` with `project` the object's project field: the
      first candidate over every bucket of the account, bucket by bucket;
      None (Python's implicit `None`) when there is none. */
  function GetS3Url(listing: seq<Bucket>, project: string, key: string): (r: Option<string>)
    ensures r.Some? ==> S3Root <= r.value
    ensures r.Some? ==> exists i :: 0 <= i < |listing| && S3Root + listing[i].name + "/" <= r.value
  {
    if listing == [] then None
    else match FirstInBucket(listing[0].name, listing[0].keys, project, key)
      case Some(url) => Some(url)
      case None => GetS3Url(listing[1..], project, key)
  }

  /** No object before position (i, j), in bucket order then object order,
      is a candidate. */
  ghost predicate NoCandidateBefore(listing: seq<Bucket>, project: string, key: string, i: int, j: int)
  {
    forall i2, j2 :: 0 <= i2 < |listing| && 0 <= j2 < |listing[i2].keys| && (i2 < i || (i2 == i && j2 < j)) ==>
      !Candidate(project, key, listing[i2].keys[j2])
  }

  /** Object j of bucket i is the first candidate. */
  ghost predicate FirstCandidateAt(listing: seq<Bucket>, project: string, key: string, i: int, j: int)
  {
    0 <= i < |listing| && 0 <= j < |listing[i].keys| &&
    Candidate(project, key, listing[i].keys[j]) &&
    NoCandidateBefore(listing, project, key, i, j)
  }

  lemma {:induction false} FirstInBucketFirstMatch(name: string, objs: seq<string>, project: string, key: string)
    ensures FirstInBucket(name, objs, project, key).None? <==>
              forall j :: 0 <= j < |objs| ==> !Candidate(project, key, objs[j])
    ensures FirstInBucket(name, objs, project, key).Some? ==>
              exists j :: 0 <= j < |objs| && Candidate(project, key, objs[j]) &&
                (forall j2 :: 0 <= j2 < j ==> !Candidate(project, key, objs[j2])) &&
                FirstInBucket(name, objs, project, key) == Some(ObjectUrl(name, objs[j]))
  {
    if objs != [] && !Candidate(project, key, objs[0]) {
      FirstInBucketFirstMatch(name, objs[1..], project, key);
      if FirstInBucket(name, objs[1..], project, key).Some? {
        var j :| 0 <= j < |objs[1..]| && Candidate(project, key, objs[1..][j]) &&
          (forall j2 :: 0 <= j2 < j ==> !Candidate(project, key, objs[1..][j2])) &&
          FirstInBucket(name, objs[1..], project, key) == Some(ObjectUrl(name, objs[1..][j]));
        assert objs[j + 1] == objs[1..][j];
        forall j2 | 0 <= j2 < j + 1 ensures !Candidate(project, key, objs[j2]) {
          if j2 > 0 {
            assert objs[j2] == objs[1..][j2 - 1];
          }
        }
      } else {
        forall j | 0 <= j < |objs| ensures !Candidate(project, key, objs[j]) {
          if j > 0 {
            assert objs[j] == objs[1..][j - 1];
          }
        }
      }
    }
  }

  /** `get_s3_url` returns None exactly when no object of any bucket is a
      candidate, and otherwise the URL of the first candidate in bucket
      order, then object order. */
  lemma {:induction false} GetS3UrlFirstMatch(listing: seq<Bucket>, project: string, key: string)
    ensures GetS3Url(listing, project, key).None? <==>
              NoCandidateBefore(listing, project, key, |listing|, 0)
    ensures GetS3Url(listing, project, key).Some? ==>
              exists i, j :: FirstCandidateAt(listing, project, key, i, j) &&
                GetS3Url(listing, project, key) == Some(ObjectUrl(listing[i].name, listing[i].keys[j]))
  {
    if listing != [] {
      var b := listing[0];
      FirstInBucketFirstMatch(b.name, b.keys, project, key);
      GetS3UrlFirstMatch(listing[1..], project, key);
      var tail := listing[1..];
      if FirstInBucket(b.name, b.keys, project, key).Some? {
        var j :| 0 <= j < |b.keys| && Candidate(project, key, b.keys[j]) &&
          (forall j2 :: 0 <= j2 < j ==> !Candidate(project, key, b.keys[j2])) &&
          FirstInBucket(b.name, b.keys, project, key) == Some(ObjectUrl(b.name, b.keys[j]));
        assert FirstCandidateAt(listing, project, key, 0, j);
        assert !NoCandidateBefore(listing, project, key, |listing|, 0);
      } else if GetS3Url(tail, project, key).Some? {
        var i, j :| FirstCandidateAt(tail, project, key, i, j) &&
          GetS3Url(tail, project, key) == Some(ObjectUrl(tail[i].name, tail[i].keys[j]));
        assert tail[i] == listing[i + 1];
        forall i2, j2 | 0 <= i2 < |listing| && 0 <= j2 < |listing[i2].keys| && (i2 < i + 1 || (i2 == i + 1 && j2 < j))
          ensures !Candidate(project, key, listing[i2].keys[j2])
        {
          if i2 > 0 {
            assert listing[i2] == tail[i2 - 1];
          }
        }
        assert FirstCandidateAt(listing, project, key, i + 1, j);
        assert !NoCandidateBefore(listing, project, key, |listing|, 0);
      } else {
        forall i2, j2 | 0 <= i2 < |listing| && 0 <= j2 < |listing[i2].keys|
          ensures !Candidate(project, key, listing[i2].keys[j2])
        {
          if i2 > 0 {
            assert listing[i2] == tail[i2 - 1];
          }
        }
      }
    }
  }

  /** The test `buildmap` applies to a walked path: it contains the map
      string and does not contain ".git" anywhere (so `.gitignore` and
      `.github/` are skipped too). */
  predicate Keep(path: string, mapstring: string)
  {
    Contains(path, mapstring) && !Contains(path, ".git")
  }

  /** The paths `buildmap` keeps, in walk order. */
  function MapFilter(paths: seq<string>, mapstring: string): (r: seq<string>)
    ensures |r| <= |paths|
    ensures forall i :: 0 <= i < |r| ==> Keep(r[i], mapstring)
  {
    if paths == [] then []
    else (if Keep(paths[0], mapstring) then [paths[0]] else []) + MapFilter(paths[1..], mapstring)
  }

  /** Filtering distributes over concatenation: the walk order is kept. */
  lemma {:induction false} MapFilterAppend(a: seq<string>, b: seq<string>, mapstring: string)
    ensures MapFilter(a + b, mapstring) == MapFilter(a, mapstring) + MapFilter(b, mapstring)
  {
    if a != [] {
      assert (a + b)[1..] == a[1..] + b;
      MapFilterAppend(a[1..], b, mapstring);
    } else {
      assert a + b == b;
    }
  }

  /** A path is kept exactly when it was walked and passes the test. */
  lemma {:induction false} MapFilterMembers(paths: seq<string>, mapstring: string, p: string)
    ensures p in MapFilter(paths, mapstring) <==> p in paths && Keep(p, mapstring)
  {
    if paths != [] {
      MapFilterMembers(paths[1..], mapstring, p);
      assert p in paths <==> p == paths[0] || p in paths[1..];
    }
  }

  /** `buildmap(start, mapstring)` over the joined paths `os.walk` yields. */
  method BuildMap(walked: seq<string>, mapstring: string) returns (fsMap: seq<string>)
    ensures fsMap == MapFilter(walked, mapstring)
    ensures forall p :: p in fsMap <==> p in walked && Keep(p, mapstring)
  {
    fsMap := [];
    for i := 0 to |walked|
      invariant fsMap == MapFilter(walked[..i], mapstring)
    {
      var path := walked[i];
      assert walked[..i + 1] == walked[..i] + [path];
      MapFilterAppend(walked[..i], [path], mapstring);
      if Contains(path, mapstring) && !Contains(path, ".git") {
        fsMap := fsMap + [path];
      }
    }
    assert walked[..|walked|] == walked;
    forall p ensures p in fsMap <==> p in walked && Keep(p, mapstring) {
      MapFilterMembers(walked, mapstring, p);
    }
  }

  /** The upload key of a local file, `re.sub('^./', '', filename)`: the
      first two characters are dropped when the second is a slash and the
      first is anything but a newline (`.` does not match a newline). */
  function UploadKey(filename: string): (k: string)
    ensures k == filename || (|filename| >= 2 && filename[1] == '/' && filename == filename[..2] + k)
  {
    if |filename| >= 2 && filename[0] != '\n' && filename[1] == '/' then filename[2..] else filename
  }

  /** The paths `os.walk('.')` produces lose their leading "./". */
  lemma UploadKeyStripsWalkPrefix(rel: string)
    ensures UploadKey("./" + rel) == rel
  {
  }

  /** The regex dot matches any first byte, not just a period; file names
      are byte strings, so this holds for a one-byte (ASCII) character. */
  lemma UploadKeyStripsAnyFirstCharacter(c: char, rel: string)
    requires c != '\n' && c < 128 as char
    ensures UploadKey([c, '/'] + rel) == rel
  {
  }

  /** A name whose second character is not a slash, or that starts with a
      newline, is uploaded under its own name. */
  lemma UploadKeyKeepsOtherNames(filename: string)
    requires |filename| < 2 || filename[1] != '/' || filename[0] == '\n'
    ensures UploadKey(filename) == filename
  {
  }

  /** The keys that reach the bucket when each file's upload succeeds or
      fails as `upload(filename, key)` says; a failure is printed and the
      loop moves on to the next file. */
  function UploadedKeys(files: seq<string>, upload: (string, string) -> bool): (r: seq<string>)
    ensures |r| <= |files|
  {
    if files == [] then []
    else (if upload(files[0], UploadKey(files[0])) then [UploadKey(files[0])] else []) +
         UploadedKeys(files[1..], upload)
  }

  lemma {:induction false} UploadedKeysAppend(a: seq<string>, b: seq<string>, upload: (string, string) -> bool)
    ensures UploadedKeys(a + b, upload) == UploadedKeys(a, upload) + UploadedKeys(b, upload)
  {
    if a != [] {
      assert (a + b)[1..] == a[1..] + b;
      UploadedKeysAppend(a[1..], b, upload);
    } else {
      assert a + b == b;
    }
  }

  /** Per-file isolation: a failing file drops only its own key, and the
      files around it are uploaded as if it were not there. */
  lemma FailedUploadDropsOnlyItself(a: seq<string>, f: string, b: seq<string>, upload: (string, string) -> bool)
    requires !upload(f, UploadKey(f))
    ensures UploadedKeys(a + [f] + b, upload) == UploadedKeys(a + b, upload)
  {
    UploadedKeysAppend(a + [f], b, upload);
    UploadedKeysAppend(a, [f], upload);
    UploadedKeysAppend(a, b, upload);
  }

  /** A key reaches the bucket exactly when some file with that key was
      uploaded successfully. */
  lemma {:induction false} UploadedKeysMembers(files: seq<string>, upload: (string, string) -> bool, k: string)
    ensures k in UploadedKeys(files, upload) <==>
              exists i :: 0 <= i < |files| && UploadKey(files[i]) == k && upload(files[i], k)
  {
    if files != [] {
      UploadedKeysMembers(files[1..], upload, k);
      if exists i :: 0 <= i < |files| && UploadKey(files[i]) == k && upload(files[i], k) {
        var i :| 0 <= i < |files| && UploadKey(files[i]) == k && upload(files[i], k);
        if i > 0 {
          assert files[1..][i - 1] == files[i];
        }
      }
      if exists i :: 0 <= i < |files[1..]| && UploadKey(files[1..][i]) == k && upload(files[1..][i], k) {
        var i :| 0 <= i < |files[1..]| && UploadKey(files[1..][i]) == k && upload(files[1..][i], k);
        assert files[1..][i] == files[i + 1];
      }
    }
  }
}
