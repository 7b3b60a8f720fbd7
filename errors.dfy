/** The errors the modelled code can throw. */
module Errors {

  /** The `code` of an error thrown by Node's `fs` module. */
  datatype OsError = ENOENT | EACCES | EISDIR | ENOTDIR | ENOSPC | EIO

  datatype Error =
    | Os(code: OsError)         // a failed filesystem call
    | SyntaxError               // `JSON.parse` rejected the text
    | TypeError                 // a property read on `undefined`
    | PathTraversal             // "Cache directory path traversal detected"
    | Upstream(message: string) // whatever the weather provider call threw
}
