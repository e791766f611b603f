/**
 * The submission endpoint, `POST /api/submit-form`. It reads the JSON body,
 * turns the current time's ISO string into a file-system-safe name by
 * replacing every ':' and '.' with '-', writes the body to
 * `form-submission-<timestamp>.json` and answers `{ success: true }`. Any
 * failure, in reading the body or in the write, gives status 500 with a fixed
 * message and nothing of the cause.
 */
module SubmitRoute {
  import opened Values

  const FilePrefix: string := "form-submission-"
  const FileExtension: string := ".json"
  const FailureMessage: string := "Failed to save form data"

  /** One character of `replace(/[:.]/g, '-')`. */
  function SafeChar(c: char): char
  {
    if c == ':' || c == '.' then '-' else c
  }

  /** `timestamp.replace(/[:.]/g, '-')`: every ':' and '.' becomes '-', all else stays. */
  function Sanitize(timestamp: string): (r: string)
    ensures |r| == |timestamp|
    ensures forall i :: 0 <= i < |r| ==> r[i] == SafeChar(timestamp[i])
    ensures ':' !in r && '.' !in r
  {
    if timestamp == [] then [] else [SafeChar(timestamp[0])] + Sanitize(timestamp[1..])
  }

  /** Sanitizing a sanitized timestamp changes nothing. */
  lemma SanitizeIdempotent(timestamp: string)
    ensures Sanitize(Sanitize(timestamp)) == Sanitize(timestamp)
  {
    var s := Sanitize(timestamp);
    assert Sanitize(s) == s by {
      forall i | 0 <= i < |s| ensures Sanitize(s)[i] == s[i] {
        assert s[i] != ':' && s[i] != '.' by {
          assert s[i] in s;
        }
      }
    }
  }

  /** The name of the file the body is written to. */
  function FileName(timestamp: string): (name: string)
    ensures |name| == |timestamp| + 21
    ensures TimestampOf(name) == Some(Sanitize(timestamp))
  {
    FilePrefix + Sanitize(timestamp) + FileExtension
  }

  /** The sanitized timestamp inside a stored file name, if the name has the endpoint's shape. */
  function TimestampOf(name: string): Option<string>
  {
    if |name| >= |FilePrefix| + |FileExtension|
       && name[..|FilePrefix|] == FilePrefix
       && name[|name| - |FileExtension|..] == FileExtension
    then Some(name[|FilePrefix|..|name| - |FileExtension|])
    else None
  }

  /** Two requests write the same file exactly when their sanitized timestamps agree. */
  lemma SameFileIffSameTimestamp(t1: string, t2: string)
    ensures FileName(t1) == FileName(t2) <==> Sanitize(t1) == Sanitize(t2)
  {
  }

  // A character-class pattern, for the shape of ISO timestamps and of the stored names.

  datatype CharClass = Digit | Exactly(c: char)

  predicate Fits(c: char, k: CharClass)
  {
    match k
    case Digit => '0' <= c <= '9'
    case Exactly(d) => c == d
  }

  predicate Matches(s: string, pattern: seq<CharClass>)
  {
    |s| == |pattern| && forall i :: 0 <= i < |s| ==> Fits(s[i], pattern[i])
  }

  /** The pattern that `s` alone matches. */
  function Literal(s: string): (p: seq<CharClass>)
    ensures |p| == |s| && Matches(s, p)
  {
    seq(|s|, i requires 0 <= i < |s| => Exactly(s[i]))
  }

  /** `YYYY-MM-DDTHH:mm:ss.sssZ`, as `toISOString` gives it. */
  const IsoTimestamp: seq<CharClass> := [
    Digit, Digit, Digit, Digit, Exactly('-'), Digit, Digit, Exactly('-'), Digit, Digit,
    Exactly('T'), Digit, Digit, Exactly(':'), Digit, Digit, Exactly(':'), Digit, Digit,
    Exactly('.'), Digit, Digit, Digit, Exactly('Z')]

  /** `\d{4}-\d{2}-\d{2}T\d{2}-\d{2}-\d{2}-\d{3}Z`: the timestamp part of a stored name. */
  const SafeTimestamp: seq<CharClass> := [
    Digit, Digit, Digit, Digit, Exactly('-'), Digit, Digit, Exactly('-'), Digit, Digit,
    Exactly('T'), Digit, Digit, Exactly('-'), Digit, Digit, Exactly('-'), Digit, Digit,
    Exactly('-'), Digit, Digit, Digit, Exactly('Z')]

  /** A stored name: `form-submission-\d{4}-\d{2}-\d{2}T\d{2}-\d{2}-\d{2}-\d{3}Z\.json`. */
  const StoredName: seq<CharClass> := Literal(FilePrefix) + SafeTimestamp + Literal(FileExtension)

  /** The class a character of class `k` falls in once sanitized. */
  function SafeClass(k: CharClass): CharClass
  {
    match k
    case Digit => Digit
    case Exactly(c) => Exactly(SafeChar(c))
  }

  lemma SafeCharFits(c: char, k: CharClass)
    requires Fits(c, k)
    ensures Fits(SafeChar(c), SafeClass(k))
  {
  }

  /** The safe timestamp shape is the ISO shape with each class sanitized. */
  lemma SafeTimestampIsSanitizedIso()
    ensures |SafeTimestamp| == |IsoTimestamp|
    ensures forall i :: 0 <= i < |IsoTimestamp| ==> SafeTimestamp[i] == SafeClass(IsoTimestamp[i])
  {
  }

  /** Sanitizing an ISO timestamp gives the safe timestamp shape. */
  lemma SanitizeIso(timestamp: string)
    requires Matches(timestamp, IsoTimestamp)
    ensures Matches(Sanitize(timestamp), SafeTimestamp)
  {
    var s := Sanitize(timestamp);
    SafeTimestampIsSanitizedIso();
    forall i | 0 <= i < |s| ensures Fits(s[i], SafeTimestamp[i]) {
      SafeCharFits(timestamp[i], IsoTimestamp[i]);
    }
  }

  /** Matching a concatenation of patterns piece by piece. */
  lemma MatchesConcat(a: string, b: string, p: seq<CharClass>, q: seq<CharClass>)
    requires Matches(a, p) && Matches(b, q)
    ensures Matches(a + b, p + q)
  {
    forall i | 0 <= i < |a + b| ensures Fits((a + b)[i], (p + q)[i]) {
      if i < |a| {
        assert (a + b)[i] == a[i] && (p + q)[i] == p[i];
      } else {
        assert (a + b)[i] == b[i - |a|] && (p + q)[i] == q[i - |a|];
      }
    }
  }

  /** For an ISO timestamp the stored name has the documented shape and is 45 characters long. */
  lemma IsoFileName(timestamp: string)
    requires Matches(timestamp, IsoTimestamp)
    ensures Matches(FileName(timestamp), StoredName)
    ensures |FileName(timestamp)| == 45
    ensures FileName(timestamp)[..16] == FilePrefix && FileName(timestamp)[40..] == FileExtension
    ensures forall i :: 0 <= i < 24 ==>
      FileName(timestamp)[16 + i] == if i == 13 || i == 16 || i == 19 then '-' else timestamp[i]
  {
    SanitizeIso(timestamp);
    MatchesConcat(FilePrefix, Sanitize(timestamp), Literal(FilePrefix), SafeTimestamp);
    MatchesConcat(FilePrefix + Sanitize(timestamp), FileExtension, Literal(FilePrefix) + SafeTimestamp, Literal(FileExtension));
  }

  /** What `request.json()` gives: a parsed value, or a failure. */
  datatype RequestBody = JsonBody(data: Value) | MalformedBody

  /** What `writeFile` comes to: written, or failed with some cause. */
  datatype WriteOutcome = Written | WriteFailed(cause: string)

  /** The write the endpoint attempts: the file name and the value serialized into it. */
  datatype FileWrite = FileWrite(fileName: string, data: Value)

  datatype ResponseBody = SuccessBody(success: bool) | ErrorBody(error: string)

  datatype Response = Response(status: int, body: ResponseBody)

  const SuccessResponse: Response := Response(200, SuccessBody(true))
  const FailureResponse: Response := Response(500, ErrorBody(FailureMessage))

  /**
   * The `POST` handler. `timestamp` is the `toISOString()` of the moment the
   * body has been read and `write` what the write of the file comes to;
   * `attempt` is the write made, if any.
   */
  method Post(request: RequestBody, timestamp: string, write: WriteOutcome) returns (attempt: Option<FileWrite>, response: Response)
    ensures attempt == if request.JsonBody? then Some(FileWrite(FileName(timestamp), request.data)) else None
    ensures response == if request.JsonBody? && write.Written? then SuccessResponse else FailureResponse
    ensures response.status == 500 <==> response.body.ErrorBody?
    ensures response.body.ErrorBody? ==> response.body.error == FailureMessage
  {
    attempt := None;
    if request.MalformedBody? {
      return attempt, FailureResponse;
    }
    var safe := Sanitize(timestamp);
    var fileName := FilePrefix + safe + FileExtension;
    attempt := Some(FileWrite(fileName, request.data));
    match write
    case Written =>
      response := SuccessResponse;
    case WriteFailed(_) =>
      // the cause is only logged; the caller sees the fixed message
      response := FailureResponse;
  }
}
