/**
 * The Cloud Storage file manager (`GCSFileManager`): uploaded files live
 * under the blob name `uploads/{file_id}/{file_name}`, where the file id
 * is the upload's timestamp and a hash of its name; listing reads the
 * file id and name back out of each blob name.
 *
 * The bucket is modelled as a map from blob names to contents.  The
 * clock, Python's `hash` of the file name and the outcome of each remote
 * call are parameters; signed and public URLs, timestamps of the blobs
 * and metadata are not modelled.
 */
module GcsStorage {
  import opened Wrappers
  import opened Text

  type Bucket = map<string, seq<bv8>>

  const UploadsPrefix: string := "uploads"

  /** The local time of an upload, as `datetime.now()` gives it. */
  datatype DateTime = DateTime(year: nat, month: nat, day: nat, hour: nat, minute: nat, second: nat)

  /** What an upload reports (without its URLs and time). */
  datatype UploadInfo = UploadInfo(fileId: string, blobName: string, fileName: string, size: nat,
                                   contentType: string, gsUri: string)

  /** One record of a listing (without sizes, times and URLs). */
  datatype Listed = Listed(fileId: string, fileName: string, blobName: string, gsUri: string)

  /** `f"uploads/{file_id}/{file_name}"`, the one blob name every operation uses. */
  function BlobName(fileId: string, fileName: string): string
  {
    UploadsPrefix + "/" + fileId + "/" + fileName
  }

  /** `f"gs://{bucket_name}/{blob_name}"`. */
  function GsUri(bucketName: string, blobName: string): string
  {
    "gs://" + bucketName + "/" + blobName
  }

  /** `strftime("%Y%m%d_%H%M%S")`. */
  function Timestamp(t: DateTime): string
  {
    NatToString(t.year) + ZeroPad(t.month, 2) + ZeroPad(t.day, 2) + "_"
      + ZeroPad(t.hour, 2) + ZeroPad(t.minute, 2) + ZeroPad(t.second, 2)
  }

  /** `f"{timestamp}_{hash(file_name) % 10000:04d}"`; Python's `%` by a positive number is never negative. */
  function FileId(now: DateTime, nameHash: int): string
  {
    Timestamp(now) + "_" + ZeroPad(nameHash % 10000, 4)
  }

  /**
   * Where an upload raises, if it does: before or at the write of the blob
   * (`upload_from_string`), or after it, while signing the URL
   * (`generate_signed_url`).
   */
  datatype UploadFault = NoFault | WriteRaises | SignRaises

  /**
   * `upload_file`: the bucket after the call, and the upload's report, or
   * `None` when the upload raises.  A raise while signing comes after the
   * write, so the blob stays in the bucket although nothing is reported.
   */
  function Upload(bucket: Bucket, bucketName: string, content: seq<bv8>, fileName: string, contentType: string,
                  now: DateTime, hash: string -> int, fault: UploadFault): (Bucket, Option<UploadInfo>)
  {
    var fileId := FileId(now, hash(fileName));
    var blobName := BlobName(fileId, fileName);
    if fault == WriteRaises then (bucket, None)
    else if fault == SignRaises then (bucket[blobName := content], None)
    else (bucket[blobName := content],
          Some(UploadInfo(fileId, blobName, fileName, |content|, contentType, GsUri(bucketName, blobName))))
  }

  /** `download_file`: the content, or `None` for the `FileNotFoundError` it raises. */
  function Download(bucket: Bucket, fileId: string, fileName: string): Option<seq<bv8>>
  {
    var blobName := BlobName(fileId, fileName);
    if blobName in bucket then Some(bucket[blobName]) else None
  }

  /**
   * `delete_file`: true and the blob removed when it exists; false when it
   * does not, or when the remote call raises (`deleteOk` false), leaving
   * the bucket as it was.
   */
  function Delete(bucket: Bucket, fileId: string, fileName: string, deleteOk: bool): (Bucket, bool)
  {
    var blobName := BlobName(fileId, fileName);
    if deleteOk && blobName in bucket then (bucket - {blobName}, true) else (bucket, false)
  }

  /** The file id and name of a blob name with at least three `/`-separated parts. */
  function ParseBlobName(name: string): Option<(string, string)>
  {
    var parts := Split(name, '/');
    if |parts| >= 3 then Some((parts[1], Join(parts[2..], '/'))) else None
  }

  /** The records of `list_files` for the blob names the listing returned, in order. */
  function Listing(bucketName: string, names: seq<string>): seq<Listed>
    decreases |names|
  {
    if |names| == 0 then []
    else
      var last := names[|names| - 1];
      Listing(bucketName, names[..|names| - 1])
        + match ParseBlobName(last)
          case None => []
          case Some(p) => [Listed(p.0, p.1, last, GsUri(bucketName, last))]
  }

  /** `list_files`; `names` is `None` when the listing raises. */
  method ListFiles(bucketName: string, names: Option<seq<string>>) returns (files: seq<Listed>)
    ensures files == if names.None? then [] else Listing(bucketName, names.value)
  {
    if names.None? {
      return [];
    }
    var blobs := names.value;
    files := [];
    var i := 0;
    while i < |blobs|
      invariant 0 <= i <= |blobs|
      invariant files == Listing(bucketName, blobs[..i])
    {
      assert blobs[..i + 1][..i] == blobs[..i];
      var parts := Split(blobs[i], '/');
      if |parts| >= 3 {
        files := files + [Listed(parts[1], Join(parts[2..], '/'), blobs[i], GsUri(bucketName, blobs[i]))];
      }
      i := i + 1;
    }
    assert blobs[..i] == blobs;
  }

  // -------------------------------------------------------------------
  // Properties
  // -------------------------------------------------------------------

  /** A file id holds no `/`: digits and underscores only. */
  lemma FileIdHasNoSlash(now: DateTime, nameHash: int)
    ensures '/' !in FileId(now, nameHash)
    ensures |ZeroPad(nameHash % 10000, 4)| == 4
  {
    var t := Timestamp(now);
    assert forall i :: 0 <= i < |t| ==> IsDigit(t[i]) || t[i] == '_';
    var suffix := ZeroPad(nameHash % 10000, 4);
    assert AllDigits(suffix);
    NatToStringShort(nameHash % 10000);
  }

  /** A number below 10000 has at most four digits. */
  lemma {:induction false} NatToStringShort(n: nat)
    requires n < 10000
    ensures |NatToString(n)| <= 4
  {
    if n >= 10 {
      NatToStringShortFrom(n);
    }
  }

  lemma {:induction false} NatToStringShortFrom(n: nat)
    requires 10 <= n < 10000
    ensures |NatToString(n)| <= 4
  {
    assert NatToString(n) == NatToString(n / 10) + [DigitChar(n % 10)];
    if n / 10 >= 10 {
      NatToStringShortFrom(n / 10);
    }
  }

  /**
   * Reading a blob name back gives the file id and name it was built
   * from whenever the id holds no `/`; the name may hold any number.
   */
  lemma ParseBlobNameRoundTrip(fileId: string, fileName: string)
    requires '/' !in fileId
    ensures ParseBlobName(BlobName(fileId, fileName)) == Some((fileId, fileName))
  {
    assert BlobName(fileId, fileName) == UploadsPrefix + ['/'] + fileId + ['/'] + fileName;
    SplitTwoFields(UploadsPrefix, fileId, fileName, '/');
    var parts := Split(BlobName(fileId, fileName), '/');
    assert parts[2..] == Split(fileName, '/');
    JoinSplit(fileName, '/');
  }

  /** A blob name with fewer than two `/`, such as `uploads/x`, is skipped by the listing. */
  lemma ParseNeedsThreeParts(name: string)
    requires forall i, j :: 0 <= i < j < |name| && name[i] == '/' ==> name[j] != '/'
    ensures ParseBlobName(name).None?
  {
    if '/' !in name {
      SplitWithout(name, '/');
    } else {
      var k :| 0 <= k < |name| && name[k] == '/';
      var a, b := name[..k], name[k + 1..];
      assert '/' !in b by {
        forall j | 0 <= j < |b| ensures b[j] != '/' {
          assert b[j] == name[k + 1 + j];
        }
      }
      assert '/' !in a by {
        forall i | 0 <= i < |a| ensures a[i] != '/' {
          assert a[i] == name[i];
        }
      }
      assert name == a + ['/'] + b;
      SplitAround(a, '/', b);
      SplitWithout(a, '/');
      SplitWithout(b, '/');
    }
  }

  /**
   * An upload stores the content under a blob name that downloading with
   * the reported id and name finds again, that a listing reads back as
   * that id and name, and whose `gs://` address names the bucket.
   */
  lemma UploadRoundTrip(bucket: Bucket, bucketName: string, content: seq<bv8>, fileName: string,
                        contentType: string, now: DateTime, hash: string -> int)
    ensures var (after, r) := Upload(bucket, bucketName, content, fileName, contentType, now, hash, NoFault);
      && r.Some?
      && var info := r.value;
      && info.fileName == fileName && info.size == |content|
      && Download(after, info.fileId, info.fileName) == Some(content)
      && ParseBlobName(info.blobName) == Some((info.fileId, fileName))
      && info.gsUri == "gs://" + bucketName + "/uploads/" + info.fileId + "/" + fileName
      && (forall b :: b in bucket && b != info.blobName ==> b in after && after[b] == bucket[b])
  {
    var fileId := FileId(now, hash(fileName));
    FileIdHasNoSlash(now, hash(fileName));
    ParseBlobNameRoundTrip(fileId, fileName);
    GsUriOfBlob(bucketName, fileId, fileName);
  }

  /**
   * A raising upload reports nothing; a raise at the write leaves the bucket
   * as it was, while a raise at signing leaves the new blob behind, where a
   * download with the file id the upload computed finds it.
   */
  lemma UploadFaults(bucket: Bucket, bucketName: string, content: seq<bv8>, fileName: string,
                     contentType: string, now: DateTime, hash: string -> int)
    ensures Upload(bucket, bucketName, content, fileName, contentType, now, hash, WriteRaises) == (bucket, None)
    ensures var (after, r) := Upload(bucket, bucketName, content, fileName, contentType, now, hash, SignRaises);
      && r.None?
      && Download(after, FileId(now, hash(fileName)), fileName) == Some(content)
      && (forall b :: b in bucket && b != BlobName(FileId(now, hash(fileName)), fileName) ==>
            b in after && after[b] == bucket[b])
      && after.Keys == bucket.Keys + {BlobName(FileId(now, hash(fileName)), fileName)}
  {
  }

  /** The `gs://` address of a blob name, written out. */
  lemma GsUriOfBlob(bucketName: string, fileId: string, fileName: string)
    ensures GsUri(bucketName, BlobName(fileId, fileName)) == "gs://" + bucketName + "/uploads/" + fileId + "/" + fileName
  {
    var g := "gs://" + bucketName;
    assert GsUri(bucketName, BlobName(fileId, fileName)) == g + ("/" + (UploadsPrefix + "/" + fileId + "/" + fileName));
    assert "/" + (UploadsPrefix + "/" + fileId + "/" + fileName) == "/uploads/" + fileId + "/" + fileName;
  }

  /** Deleting reports whether the blob existed, and afterwards it is gone. */
  lemma DeleteEffect(bucket: Bucket, fileId: string, fileName: string)
    ensures var (after, ok) := Delete(bucket, fileId, fileName, true);
      && (ok <==> Download(bucket, fileId, fileName).Some?)
      && Download(after, fileId, fileName).None?
      && (forall b :: b in bucket && b != BlobName(fileId, fileName) ==> b in after && after[b] == bucket[b])
    ensures Delete(bucket, fileId, fileName, false) == (bucket, false)
  {
  }

  /**
   * A listing has at most one record per blob name, in the listing's
   * order, each reading its id and name out of its own blob name.
   */
  lemma {:induction false} ListingEntries(bucketName: string, names: seq<string>)
    ensures |Listing(bucketName, names)| <= |names|
    ensures forall e :: e in Listing(bucketName, names) ==>
      e.blobName in names && ParseBlobName(e.blobName) == Some((e.fileId, e.fileName))
      && e.gsUri == GsUri(bucketName, e.blobName)
    ensures (forall i :: 0 <= i < |names| ==> ParseBlobName(names[i]).Some?) ==> |Listing(bucketName, names)| == |names|
    decreases |names|
  {
    if |names| > 0 {
      var init := names[..|names| - 1];
      ListingEntries(bucketName, init);
      assert forall i :: 0 <= i < |init| ==> init[i] == names[i];
    }
  }

  /** A time whose year has four digits and whose other fields have at most two. */
  predicate FourDigitYear(t: DateTime)
  {
    1000 <= t.year <= 9999 && t.month < 100 && t.day < 100 && t.hour < 100 && t.minute < 100 && t.second < 100
  }

  /** Every file id of such a time has the same length, 20 characters. */
  lemma FileIdLength(now: DateTime, nameHash: int)
    requires FourDigitYear(now)
    ensures |FileId(now, nameHash)| == 20
  {
    NatToStringFourDigits(now.year);
    NatToStringTwoDigits(now.month);
    NatToStringTwoDigits(now.day);
    NatToStringTwoDigits(now.hour);
    NatToStringTwoDigits(now.minute);
    NatToStringTwoDigits(now.second);
    NatToStringShort(nameHash % 10000);
  }

  lemma NatToStringFourDigits(n: nat)
    requires 1000 <= n <= 9999
    ensures |NatToString(n)| == 4
  {
    assert NatToString(n) == NatToString(n / 10) + [DigitChar(n % 10)];
    assert NatToString(n / 10) == NatToString(n / 100) + [DigitChar(n / 10 % 10)];
    assert NatToString(n / 100) == NatToString(n / 1000) + [DigitChar(n / 100 % 10)];
  }

  lemma NatToStringTwoDigits(n: nat)
    requires n < 100
    ensures |NatToString(n)| <= 2
  {
    if n >= 10 {
      assert NatToString(n) == NatToString(n / 10) + [DigitChar(n % 10)];
    }
  }
}
