/**
 * The server's response envelopes, its typed API errors and the upload
 * validators (app/utils/errors.py).
 */
module ApiErrors {
  import opened Wrappers
  import opened Text
  import opened Py

  /** A response: the JSON body and the HTTP status. */
  datatype Reply = Reply(body: PyValue, status: int)

  /** An `APIError`: message, status code and optional field errors (`PyNone` for `None`). */
  datatype ApiError = ApiError(message: string, statusCode: int, errors: PyValue)

  /**
   * How a handler ends: with a reply, by raising an `APIError`, by
   * `abort(status)`, or with any other exception (an unhandled crash).
   * Only the first two are turned into replies here; the last two are left
   * to whatever handler the application registers.
   */
  datatype Outcome =
    | Replied(reply: Reply)
    | Raised(error: ApiError)
    | Aborted(status: int)
    | Crashed

  /** A one-entry field-error dict such as `{"name": "Required field"}`. */
  function FieldErrors(field: string, message: string): PyValue {
    PyDict(map[field := PyStr(message)])
  }

  function ValidationError(message: string := "Invalid input data", errors: PyValue := PyNone): ApiError {
    ApiError(message, 400, errors)
  }

  function AuthorizationError(message: string := "Access denied"): ApiError {
    ApiError(message, 403, PyNone)
  }

  function ResourceNotFoundError(resourceType: string := "Resource"): ApiError {
    ApiError(resourceType + " not found", 404, PyNone)
  }

  function FileUploadError(message: string := "File upload failed", errors: PyValue := PyNone): ApiError {
    ApiError(message, 422, errors)
  }

  /** The reply `api_error(message, status_code, errors)` builds. */
  function ErrorReply(message: string, statusCode: int, errors: PyValue): (r: Reply)
    ensures r.status == statusCode && r.body.PyDict?
    ensures r.body.entries.Keys == {"success", "error"} + (if PyTruthy(errors) then {"errors"} else {})
    ensures r.body.entries["success"] == PyBool(false)
    ensures r.body.entries["error"] == PyStr(message)
    ensures PyTruthy(errors) ==> r.body.entries["errors"] == errors
  {
    var base := map["success" := PyBool(false), "error" := PyStr(message)];
    Reply(PyDict(if PyTruthy(errors) then base["errors" := errors] else base), statusCode)
  }

  /** The reply `api_success(data, message, status_code)` builds. */
  function SuccessReply(data: PyValue, message: Option<string>, statusCode: int): (r: Reply)
    ensures r.status == statusCode && r.body.PyDict?
    ensures r.body.entries.Keys ==
      {"success"} + (if data != PyNone then {"data"} else {}) + (if message.Some? then {"message"} else {})
    ensures r.body.entries["success"] == PyBool(true)
    ensures data != PyNone ==> r.body.entries["data"] == data
    ensures message.Some? ==> r.body.entries["message"] == PyStr(message.value)
  {
    var withData := if data != PyNone then map["success" := PyBool(true), "data" := data] else map["success" := PyBool(true)];
    Reply(PyDict(if message.Some? then withData["message" := PyStr(message.value)] else withData), statusCode)
  }

  /** `api_error`: the dict is built key by key; `errors` goes in only when truthy. */
  method ApiErrorResponse(message: string, statusCode: int := 400, errors: PyValue := PyNone) returns (r: Reply)
    ensures r == ErrorReply(message, statusCode, errors)
  {
    var response := map["success" := PyBool(false), "error" := PyStr(message)];
    if PyTruthy(errors) {
      response := response["errors" := errors];
    }
    r := Reply(PyDict(response), statusCode);
  }

  /** `api_success`: `data` and `message` go in only when they are not `None`. */
  method ApiSuccess(data: PyValue := PyNone, message: Option<string> := None, statusCode: int := 200) returns (r: Reply)
    ensures r == SuccessReply(data, message, statusCode)
  {
    var response := map["success" := PyBool(true)];
    if data != PyNone {
      response := response["data" := data];
    }
    if message.Some? {
      response := response["message" := PyStr(message.value)];
    }
    r := Reply(PyDict(response), statusCode);
  }

  /** `handle_api_error`: a raised `APIError` becomes the `api_error` reply with its own fields. */
  method HandleApiError(error: ApiError) returns (r: Reply)
    ensures r == ErrorReply(error.message, error.statusCode, error.errors)
    ensures r.status == error.statusCode
  {
    r := ApiErrorResponse(error.message, error.statusCode, error.errors);
  }

  /** The upload extensions the track form accepts (app/forms/upload_form.py). */
  const AllowedExtensions: seq<string> := ["mp3", "wav", "ogg", "flac", "m4a"]

  /**
   * The reply `handle_api_error` sends for each `APIError` subclass: its
   * status, its message under "error", and an "errors" key only for the
   * classes that carry truthy field errors.
   */
  lemma ErrorClassReplies(message: string, errors: PyValue, resourceType: string)
    ensures var r := ErrorReply(ValidationError(message, errors).message, 400, ValidationError(message, errors).errors);
      && ValidationError(message, errors).statusCode == 400
      && r.body.entries["error"] == PyStr(message)
      && ("errors" in r.body.entries <==> PyTruthy(errors))
    ensures var e := AuthorizationError(message); var r := ErrorReply(e.message, e.statusCode, e.errors);
      r.status == 403 && r.body.entries.Keys == {"success", "error"} && r.body.entries["error"] == PyStr(message)
    ensures var e := ResourceNotFoundError(resourceType); var r := ErrorReply(e.message, e.statusCode, e.errors);
      r.status == 404 && r.body.entries.Keys == {"success", "error"} &&
      r.body.entries["error"] == PyStr(resourceType + " not found")
    ensures var e := FileUploadError(message, errors); var r := ErrorReply(e.message, e.statusCode, e.errors);
      && r.status == 422 && r.body.entries["error"] == PyStr(message)
      && ("errors" in r.body.entries <==> PyTruthy(errors))
    ensures var e := ValidationError(); var r := ErrorReply(e.message, e.statusCode, e.errors);
      r.status == 400 && r.body.entries.Keys == {"success", "error"} && r.body.entries["error"] == PyStr("Invalid input data")
  {
  }

  /** The index of the last '.' in `s`, if any. */
  function LastDot(s: string): (r: Option<nat>)
    ensures r.None? <==> '.' !in s
    ensures r.Some? ==> r.value < |s| && s[r.value] == '.' && '.' !in s[r.value + 1..]
  {
    if s == [] then None
    else if s[|s| - 1] == '.' then Some(|s| - 1)
    else
      var r := LastDot(s[..|s| - 1]);
      assert s == s[..|s| - 1] + [s[|s| - 1]];
      if r.Some? then
        assert s[r.value + 1..] == s[..|s| - 1][r.value + 1..] + [s[|s| - 1]];
        r
      else r
  }

  /** `filename.rsplit('.', 1)[1].lower()`: the text after the last '.', lowercased. */
  function Extension(filename: string): string
    requires '.' in filename
  {
    ToLower(filename[LastDot(filename).value + 1..])
  }

  /** `validate_file_extension`. */
  function ValidateFileExtension(filename: string, allowed: seq<string>): (r: Result<bool, ApiError>)
    ensures '.' !in filename ==> r == Err(ValidationError("Invalid file", FieldErrors("file", "No file extension")))
    ensures '.' in filename ==> (r.Ok? <==> Extension(filename) in allowed)
    ensures r.Ok? ==> r.value
    ensures r.Err? && '.' in filename ==>
      r.error == ValidationError("File type not allowed. Allowed types: " + Join(allowed, ", "),
                                 FieldErrors("file", "Invalid file extension"))
  {
    if '.' !in filename then
      Err(ValidationError("Invalid file", FieldErrors("file", "No file extension")))
    else if Extension(filename) !in allowed then
      Err(ValidationError("File type not allowed. Allowed types: " + Join(allowed, ", "),
                          FieldErrors("file", "Invalid file extension")))
    else
      Ok(true)
  }

  /**
   * A filename passes exactly when some '.' has no '.' after it and the
   * lowercased text after that '.' is an allowed extension.
   */
  lemma ExtensionAfterLastDot(filename: string, allowed: seq<string>)
    ensures ValidateFileExtension(filename, allowed).Ok? <==>
      exists i :: 0 <= i < |filename| && filename[i] == '.' && '.' !in filename[i + 1..] &&
                  ToLower(filename[i + 1..]) in allowed
  {
    if ValidateFileExtension(filename, allowed).Ok? {
      var i := LastDot(filename).value;
      assert filename[i] == '.' && '.' !in filename[i + 1..] && Extension(filename) in allowed;
    } else if '.' in filename {
      NoOtherLastDot(filename, allowed);
    }
  }

  lemma NoOtherLastDot(filename: string, allowed: seq<string>)
    requires '.' in filename && Extension(filename) !in allowed
    ensures forall i :: 0 <= i < |filename| && filename[i] == '.' && '.' !in filename[i + 1..] ==>
      ToLower(filename[i + 1..]) !in allowed
  {
    forall i | 0 <= i < |filename| && filename[i] == '.' && '.' !in filename[i + 1..]
      ensures ToLower(filename[i + 1..]) !in allowed
    {
      LastDotUnique(filename, i);
    }
  }

  /** A '.' with no '.' after it is the last one. */
  lemma LastDotUnique(s: string, i: nat)
    requires i < |s| && s[i] == '.' && '.' !in s[i + 1..]
    ensures LastDot(s) == Some(i)
  {
  }

  /** Uppercase extensions pass: the extension is lowercased before the lookup. */
  lemma UppercaseExtensionPasses()
    ensures ValidateFileExtension("song.MP3", AllowedExtensions).Ok?
  {
    assert LastDot("song.MP3") == Some(4);
    assert "song.MP3"[5..] == "MP3";
    assert ToLower("MP3") == "mp3";
  }

  /** Only the text after the last '.' counts. */
  lemma LastExtensionCounts()
    ensures ValidateFileExtension("song.mp3.exe", AllowedExtensions).Err?
  {
    assert LastDot("song.mp3.exe") == Some(8);
    assert "song.mp3.exe"[9..] == "exe";
    assert ToLower("exe") == "exe";
  }

  /** The file stream an upload carries: its length, its read position and the request's content length, if any. */
  class UploadedFile {
    const size: nat
    var position: nat
    const contentLength: Option<int>

    constructor (size: nat, position: nat, contentLength: Option<int>)
      ensures this.size == size && this.position == position && this.contentLength == contentLength
    {
      this.size := size;
      this.position := position;
      this.contentLength := contentLength;
    }

    /** `file.tell()` */
    method Tell() returns (p: nat)
      ensures p == position
    {
      p := position;
    }

    /** `file.seek(offset)`, or `file.seek(0, 2)` with `offset == size`. */
    method Seek(offset: nat)
      modifies this
      ensures position == offset
    {
      position := offset;
    }
  }

  /** `max_size_mb * 1024 * 1024` */
  function MaxBytes(maxSizeMb: int): int {
    maxSizeMb * 1024 * 1024
  }

  function FileTooLarge(maxSizeMb: int): ApiError {
    ValidationError("File too large. Maximum size: " + IntToString(maxSizeMb) + "MB",
                    FieldErrors("file", "Maximum file size exceeded"))
  }

  /**
   * `validate_file_size`: rejects a declared content length or a stream
   * length above the limit; a size equal to the limit passes. The read
   * position is the same afterwards.
   */
  method ValidateFileSize(file: UploadedFile, maxSizeMb: int := 10) returns (r: Result<bool, ApiError>)
    modifies file
    ensures file.position == old(file.position)
    ensures r.Ok? <==>
      !(file.contentLength.Some? && file.contentLength.value > MaxBytes(maxSizeMb)) && file.size <= MaxBytes(maxSizeMb)
    ensures r.Ok? ==> r.value
    ensures r.Err? ==> r.error == FileTooLarge(maxSizeMb)
  {
    var maxBytes := maxSizeMb * 1024 * 1024;
    if file.contentLength.Some? && file.contentLength.value > maxBytes {
      return Err(FileTooLarge(maxSizeMb));
    }
    var filePos := file.Tell();
    file.Seek(file.size);
    var size := file.Tell();
    file.Seek(filePos);
    if size > maxBytes {
      return Err(FileTooLarge(maxSizeMb));
    }
    r := Ok(true);
  }
}
