/**
 * How `uploadSteps` and `decryptSteps` classify a thrown error by a substring
 * of its message (frontend/web/src/App.tsx:178-180 and 233).
 */
module Messages {
  import opened Records
  import opened Text

  const RejectionPhrase := "user rejected transaction"
  const AlreadyVerifiedPhrase := "Data already verified"
  const RejectedText := "Transaction rejected"
  const UploadFailedPrefix := "Upload failed: "
  const UnknownError := "Unknown error"

  /** `e.message?.includes(phrase)`: false when the error has no message. */
  predicate MessageIncludes(e: JsError, phrase: string)
  {
    e.message.Some? && Contains(e.message.value, phrase)
  }

  /**
   * The text shown when an upload fails: a rejected signature is reported as
   * such; anything else as "Upload failed: " followed by the message, or by
   * "Unknown error" when the message is missing or empty.
   */
  function UploadErrorMessage(e: JsError): (m: string)
    ensures m == RejectedText <==> MessageIncludes(e, RejectionPhrase)
    ensures !MessageIncludes(e, RejectionPhrase) ==>
      && StartsWith(m, UploadFailedPrefix)
      && var detail := m[|UploadFailedPrefix|..];
         if e.message.Some? && e.message.value != [] then detail == e.message.value else detail == UnknownError
  {
    if MessageIncludes(e, RejectionPhrase) then RejectedText
    else
      var m := UploadFailedPrefix + (if e.message.Some? && e.message.value != [] then e.message.value else UnknownError);
      assert m[0] != RejectedText[0];
      m
  }

  /** The error says the ledger already holds a verified value: another party won the race. */
  predicate IsAlreadyVerified(e: JsError)
  {
    MessageIncludes(e, AlreadyVerifiedPhrase)
  }
}
