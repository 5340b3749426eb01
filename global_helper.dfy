/**
 * The small helpers both snapshots share: stripping a file name's extension with
 * `split('.')`, `slice(0, -1)` and `join('.')`, and turning a management API error into
 * the value the import throws.
 */
module GlobalHelper {
  import opened Wrappers

  // ---------------------------------------------------------------- split and join

  /** `s.split(sep)`: the pieces between the separators, at least one, none containing it. */
  function Split(s: string, sep: char): (r: seq<string>)
    ensures |r| >= 1
    ensures forall i :: 0 <= i < |r| ==> sep !in r[i]
  {
    if |s| == 0 then [""]
    else
      var rest := Split(s[1..], sep);
      if s[0] == sep then [""] + rest
      else
        assert sep !in [s[0]] + rest[0];
        [[s[0]] + rest[0]] + rest[1..]
  }

  /** `parts.join(sep)`. */
  function Join(parts: seq<string>, sep: string): string {
    if |parts| == 0 then ""
    else if |parts| == 1 then parts[0]
    else parts[0] + sep + Join(parts[1..], sep)
  }

  /** Joining the pieces of a split gives the string back. */
  lemma {:induction false} JoinSplit(s: string, sep: char)
    ensures Join(Split(s, sep), [sep]) == s
  {
    if |s| > 0 {
      var rest := Split(s[1..], sep);
      JoinSplit(s[1..], sep);
      if s[0] == sep {
        assert ([""] + rest)[1..] == rest;
      } else {
        var r := [[s[0]] + rest[0]] + rest[1..];
        assert r[1..] == rest[1..];
        if |rest| > 1 {
          assert Join(rest, [sep]) == rest[0] + [sep] + Join(rest[1..], [sep]);
        }
      }
    }
  }

  /** Joining one piece more adds the separator and the piece at the end. */
  lemma {:induction false} JoinSnoc(parts: seq<string>, x: string, sep: string)
    requires |parts| >= 1
    ensures Join(parts + [x], sep) == Join(parts, sep) + sep + x
  {
    if |parts| > 1 {
      assert (parts + [x])[1..] == parts[1..] + [x];
      JoinSnoc(parts[1..], x, sep);
    }
  }

  // ---------------------------------------------------------------- getFilenameWithoutExtension

  /** `getFilenameWithoutExtension`. */
  function GetFilenameWithoutExtension(filename: string): (r: Result<string, string>)
    ensures r.Fail? <==> filename == ""
    ensures r.Fail? ==> r.error == "Invalid filename"
    ensures filename != "" && '.' !in filename ==> r == Ok(filename)
  {
    if filename == "" then Fail("Invalid filename")
    else if '.' !in filename then Ok(filename)
    else
      var parts := Split(filename, '.');
      Ok(Join(parts[..|parts| - 1], "."))
  }

  /**
   * With a `'.'` in the name, exactly the last `'.'`-separated segment and its dot are
   * dropped: the result, a dot and a dot-free segment make up the name.
   */
  lemma DropsLastSegment(filename: string)
    requires '.' in filename
    ensures GetFilenameWithoutExtension(filename).Ok?
    ensures exists last :: ('.' !in last
      && GetFilenameWithoutExtension(filename).value + "." + last == filename)
    ensures |GetFilenameWithoutExtension(filename).value| < |filename|
  {
    var parts := Split(filename, '.');
    JoinSplit(filename, '.');
    assert |parts| >= 2;
    var n := |parts|;
    assert parts == parts[..n - 1] + [parts[n - 1]];
    JoinSnoc(parts[..n - 1], parts[n - 1], ".");
    assert '.' !in parts[n - 1];
  }

  // ---------------------------------------------------------------- handleError

  /** What a management API call can fail with: a Kontent error response, or anything else. */
  datatype ApiError =
    | KontentError(message: string, errorCode: int, requestId: string, validationMessages: seq<string>)
    | OtherError(description: string)

  /** What the import throws: the summary record built from a Kontent error, or the error as it came. */
  datatype Thrown =
    | ImportFailure(message: string, errorCode: int, requestId: string, validationErrors: string)
    | Raised(error: ApiError)

  const ImportFailurePrefix := "Failed to import data with error: "

  /**
   * `handleError`: never returns normally. A Kontent error becomes the summary record, with
   * the validation messages joined by `", "`; any other error is thrown unchanged.
   */
  function HandleError(e: ApiError): (r: Result<(), Thrown>)
    ensures r.Fail?
    ensures e.OtherError? ==> r.error == Raised(e)
    ensures e.KontentError? ==> (r.error.ImportFailure?
      && r.error.errorCode == e.errorCode && r.error.requestId == e.requestId
      && r.error.validationErrors == Join(e.validationMessages, ", "))
  {
    match e
    case KontentError(msg, code, req, vs) => Fail(ImportFailure(ImportFailurePrefix + msg, code, req, Join(vs, ", ")))
    case OtherError(_) => Fail(Raised(e))
  }

  /** The summary starts with the fixed prefix, after which the API's own message follows unchanged. */
  lemma HandleErrorMessage(e: ApiError)
    requires e.KontentError?
    ensures |HandleError(e).error.message| >= |ImportFailurePrefix|
    ensures HandleError(e).error.message[..|ImportFailurePrefix|] == ImportFailurePrefix
    ensures HandleError(e).error.message[|ImportFailurePrefix|..] == e.message
  {
  }
}
