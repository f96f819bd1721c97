/** The program's error type and its `Display` text. */
module Errors {

  /** `AppError`: filesystem, JSON and terminal failures wrap the library's message;
      `Custom` carries the program's own text, including the `"exit"` request. */
  datatype AppError =
    | IoError(detail: string)
    | JsonError(detail: string)
    | TerminalError(detail: string)
    | Custom(message: string)

  /** `impl Display for AppError`. */
  function Display(e: AppError): string {
    match e
    case IoError(d) => "IO error: " + d
    case JsonError(d) => "JSON error: " + d
    case TerminalError(d) => "Terminal error: " + d
    case Custom(m) => m
  }

  /** The error raised by the Exit menu item. */
  const ExitRequest: AppError := Custom("exit")

  /** Only the Exit request displays as `"exit"`: every wrapped library error carries a
      prefix that is already longer than that word. */
  lemma DisplayIsExit(e: AppError)
    ensures Display(e) == "exit" <==> e == ExitRequest
  {
    match e
    case IoError(d) => assert |Display(e)| >= 10;
    case JsonError(d) => assert |Display(e)| >= 12;
    case TerminalError(d) => assert |Display(e)| >= 16;
    case Custom(m) =>
  }
}
