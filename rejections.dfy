/** What a rejected backend call hands to a `catch` block, and how the components turn it into text. */
module Rejections {

  /** A thrown value: an `Error` object, or anything else (shown through `String`). */
  datatype Thrown = ErrorObject(message: string) | OtherValue(text: string)

  /** `err instanceof Error ? err.message : String(err)`. */
  function ErrorText(t: Thrown): string {
    match t
    case ErrorObject(m) => m
    case OtherValue(s) => s
  }
}
