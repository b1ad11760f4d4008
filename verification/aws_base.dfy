/** Values shared by every part of the provider model: optional (pointer)
    values, errors returned by AWS API calls, and the untyped values Terraform
    hands to the expand and flatten helpers. */
module AwsBase {

  /** A Go pointer or an optional field: None stands for nil. */
  datatype Option<+T> = None | Some(value: T)

  /** An error returned by an API call. An AWS service error carries a code;
      any other failure (transport, credentials, ...) carries none. */
  datatype ApiError =
    | AwsError(code: string, message: string)
    | OtherError(message: string)

  /** The provider's `tfawserr.ErrCodeEquals(err, code)` and
      `isAWSErr(err, code, "")`: the error is an AWS error with that code
      (every message contains the empty string). */
  predicate ErrCodeEquals(err: Option<ApiError>, code: string) {
    err.Some? && err.value.AwsError? && err.value.code == code
  }

  /** `aws.StringValue`: the pointed-to string, or "" for nil. */
  function StringValue(p: Option<string>): string {
    match p
    case Some(s) => s
    case None => ""
  }

  /** `aws.BoolValue`: the pointed-to bool, or false for nil. */
  function BoolValue(p: Option<bool>): bool {
    match p
    case Some(b) => b
    case None => false
  }

  /** An `interface{}` value as Terraform's schema layer hands it to the
      expand helpers and takes it back from the flatten helpers. */
  datatype Value =
    | Null
    | Str(s: string)
    | Bool(b: bool)
    | Object(fields: map<string, Value>)
}
