/** The page's own message shape (`Message` in the chat types). */
module ChatTypes {
  import opened Wrappers

  /** Who wrote a message, as the page shows it. */
  datatype Sender = User | Bot

  /**
   * A message as rendered; `kind` is the `type` field of `Message` (a
   * reserved word here) and `createdAt` a time stamp in milliseconds, an
   * optional field of `Message`.
   */
  datatype Message = Message(id: string, kind: Sender, text: string, createdAt: Option<int>)
}
