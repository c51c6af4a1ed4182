/** The error body the server returns on failure. Two shapes share one record:
    the application's own (`errorType`, `errorMessage`) and the web
    framework's default (`timestamp`, `status`, `error`, `message`, `path`).
    Every field is optional, and both shapes may be filled at once. */
module AppErrorModel {
  import opened Wrappers
  import opened Json

  datatype AppError = AppError(
    errorType: Option<string>,
    errorMessage: Option<string>,
    timestamp: Option<string>,
    status: Option<Int64>,
    error: Option<string>,
    message: Option<string>,
    path: Option<string>)

  /** The record with every field null, as `{}` deserialises. */
  const Empty: AppError := AppError(None, None, None, None, None, None, None)
}
