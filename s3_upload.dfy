/**
 * Naming and addressing of an uploaded report: the object key under the
 * `proof-iq/` prefix, made unique by the upload time, and the public
 * virtual-hosted-style URL of that key.
 */
module S3Upload {
  import opened Js

  datatype S3Config = S3Config(accessKeyId: string, secretAccessKey: string, region: string, bucket: string)

  /** The `PutObjectCommand` the upload sends. */
  datatype PutObject = PutObject(bucket: string, key: string, body: seq<int>, contentType: string)

  const KeyPrefix: string := "proof-iq/"
  const KeySuffix: string := ".pdf"

  /** `proof-iq/<timestamp>-<fileName>.pdf`, the timestamp in milliseconds written in decimal. */
  function ObjectKey(timestamp: nat, fileName: string): (key: string)
    ensures |key| == |KeyPrefix| + |Decimal(timestamp)| + 1 + |fileName| + |KeySuffix|
    ensures key[..|KeyPrefix|] == KeyPrefix
    ensures key[|key| - |KeySuffix|..] == KeySuffix
    ensures key[|KeyPrefix|..|KeyPrefix| + |Decimal(timestamp)|] == Decimal(timestamp)
    ensures key[|KeyPrefix| + |Decimal(timestamp)|] == '-'
    ensures key[|KeyPrefix| + |Decimal(timestamp)| + 1..|key| - |KeySuffix|] == fileName
  {
    KeyPrefix + Decimal(timestamp) + "-" + fileName + KeySuffix
  }

  /** `https://<bucket>.s3.<region>.amazonaws.com/<key>`: the key is the URL's suffix after the host's `/`. */
  function PublicUrl(config: S3Config, key: string): (url: string)
    ensures |url| > |key| + 8
    ensures url[..8] == "https://"
    ensures url[|url| - |key|..] == key
    ensures url[|url| - |key| - 1] == '/'
  {
    "https://" + config.bucket + ".s3." + config.region + ".amazonaws.com/" + key
  }

  /**
   * `uploadPdfToS3`: `timestamp` is `Date.now()` and `reply` what the
   * client's `send` did with the command. The URL is returned only when the
   * object was stored; a failed send propagates.
   */
  function UploadPdfToS3(pdf: seq<int>, fileName: string, config: S3Config, timestamp: nat, reply: Outcome<()>)
    : (r: (PutObject, Outcome<string>))
    ensures r.0 == PutObject(config.bucket, ObjectKey(timestamp, fileName), pdf, "application/pdf")
    ensures r.1.Returned? <==> reply.Returned?
    ensures r.1.Returned? ==> r.1.value == PublicUrl(config, ObjectKey(timestamp, fileName))
    ensures reply.Threw? ==> r.1 == Threw(reply.error)
  {
    var key := ObjectKey(timestamp, fileName);
    var command := PutObject(config.bucket, key, pdf, "application/pdf");
    match reply
    case Threw(e) => (command, Threw(e))
    case Returned(_) => (command, Returned(PublicUrl(config, key)))
  }

  /** Uploads of the same file at different times get different keys. */
  lemma KeyInjectiveInTimestamp(t1: nat, t2: nat, fileName: string)
    requires ObjectKey(t1, fileName) == ObjectKey(t2, fileName)
    ensures t1 == t2
  {
    // The key fixes where the timestamp's digits end (at the first '-'), hence the digits.
    DecimalInjective(t1, t2);
  }

  /** Uploads of different files at the same time get different keys. */
  lemma KeyInjectiveInFileName(timestamp: nat, f1: string, f2: string)
    requires ObjectKey(timestamp, f1) == ObjectKey(timestamp, f2)
    ensures f1 == f2
  {
  }

  /** In the key after the prefix, the first `-` is the one right after the timestamp's digits. */
  lemma TimestampEndsAtFirstDash(timestamp: nat, fileName: string)
    ensures IndexOf(ObjectKey(timestamp, fileName)[|KeyPrefix|..], '-') == |Decimal(timestamp)|
  {
    var rest := ObjectKey(timestamp, fileName)[|KeyPrefix|..];
    var digits := Decimal(timestamp);
    assert rest[..|digits|] == digits;
    assert rest[|digits|] == '-';
    assert forall k :: 0 <= k < |digits| ==> rest[k] == digits[k] && rest[k] != '-';
  }

  /** Different uploads get different keys: the key determines both the timestamp and the file name. */
  lemma KeyInjective(t1: nat, f1: string, t2: nat, f2: string)
    requires ObjectKey(t1, f1) == ObjectKey(t2, f2)
    ensures t1 == t2 && f1 == f2
  {
    TimestampEndsAtFirstDash(t1, f1);
    TimestampEndsAtFirstDash(t2, f2);
    assert Decimal(t1) == Decimal(t2);
    DecimalInjective(t1, t2);
    KeyInjectiveInFileName(t1, f1, f2);
  }

  /** The key can be read back off the end of its URL. */
  lemma KeyRecoverableFromUrl(config: S3Config, timestamp: nat, fileName: string)
    ensures var key := ObjectKey(timestamp, fileName);
      var url := PublicUrl(config, key);
      url[|url| - |key|..] == key && key[..|KeyPrefix|] == KeyPrefix
  {
  }

  /** The characters a key may hold when its file name is made of letters, digits and `-`. */
  predicate IsKeyChar(c: char)
  {
    IsAsciiAlnum(c) || c == '-' || c == '/' || c == '.'
  }

  /** A file name of letters, digits and `-` gives a key of letters, digits, `-`, `/` and `.` only. */
  lemma KeyCharacters(timestamp: nat, fileName: string)
    requires forall k :: 0 <= k < |fileName| ==> IsAsciiAlnum(fileName[k]) || fileName[k] == '-'
    ensures var key := ObjectKey(timestamp, fileName);
      forall k :: 0 <= k < |key| ==> IsKeyChar(key[k])
  {
    var d := Decimal(timestamp);
    var key := ObjectKey(timestamp, fileName);
    assert key == KeyPrefix + d + "-" + fileName + KeySuffix;
    forall k | 0 <= k < |key| ensures IsKeyChar(key[k]) {
      if k < |KeyPrefix| {
        assert key[k] == KeyPrefix[k];
      } else if k < |KeyPrefix| + |d| {
        assert key[k] == d[k - |KeyPrefix|];
      } else if k == |KeyPrefix| + |d| {
      } else if k < |key| - |KeySuffix| {
        assert key[k] == fileName[k - |KeyPrefix| - |d| - 1];
      } else {
        assert key[k] == KeySuffix[k - (|key| - |KeySuffix|)];
      }
    }
  }
}
