/** `ApiError`, the error the backend throws for every expected failure, and
    the JSON object it serialises to. */
module ApiErrors {
  import opened Wrappers

  /** The serialised form: exactly these four fields, never `data` or `stack`. */
  datatype ErrorBody = ErrorBody(statusCode: int, message: string, errors: seq<string>, success: bool)

  /** Where the stack trace comes from: the argument, or `Error.captureStackTrace`. */
  datatype Stack = Given(trace: string) | Captured

  class ApiError {
    const statusCode: int
    const message: string
    const errors: seq<string>
    const stack: Stack
    /** Always `null`. */
    const data: Option<string> := None
    /** Always `false`. */
    const success: bool := false

    /** `new ApiError(statusCode, message?, errors?, stack?)`; an empty stack
        string is falsy, so the trace is then captured. */
    constructor (statusCode: int, message: string := "Something went wrong",
                 errors: seq<string> := [], stack: string := "")
      ensures this.statusCode == statusCode && this.message == message && this.errors == errors
      ensures this.stack == if stack != "" then Given(stack) else Captured
    {
      this.statusCode := statusCode;
      this.message := message;
      this.errors := errors;
      this.stack := if stack != "" then Given(stack) else Captured;
    }

    /** `toJSON()`: the fields as passed to the constructor, with
        `success` false whatever the error. */
    function ToJson(): (body: ErrorBody)
      ensures body.statusCode == statusCode && body.message == message && body.errors == errors
      ensures !body.success
    {
      ErrorBody(statusCode, message, errors, success)
    }
  }

  /** What callers can rely on from the constructor alone: the defaults, and
      a body that states the same status. */
  method DefaultsExample(status: int) returns (body: ErrorBody)
    ensures body == ErrorBody(status, "Something went wrong", [], false)
  {
    var e := new ApiError(status);
    assert e.data == None && e.stack == Captured;
    body := e.ToJson();
  }
}
