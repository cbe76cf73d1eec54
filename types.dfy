/** Shared value types: optional values, results, and the SDK's checked exception. */
module Types {

  /** A Java reference that may be null, where the SDK tests for null explicitly. */
  datatype Option<+T> = None | Some(value: T)

  /** A value, or the exception the SDK throws instead of returning it. */
  datatype Result<+R, +E> = Success(value: R) | Failure(error: E)

  /** Completion of an operation that returns nothing but may throw. */
  datatype Outcome<+E> = Pass | Fail(error: E)

  /** `WhispirSDKException`: the SDK's checked exception, carrying its message. */
  datatype SdkException = SdkException(message: string)

  /** Thrown by the constructor when the API key, user name or password is missing. */
  const NoAuthError: string :=
    "Whispir API Authentication failed. API Key, Username or Password was not provided."

  /** Thrown by the header selector for a resource other than messages or workspaces. */
  const ResourceNotFoundError: string :=
    "Resource specified was not found. Expecting Workspaces or Messages"
}
