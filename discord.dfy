/** What the two Discord clients read from an incoming message event. */
module Discord {

  /** An uploaded file, known here only by its name. */
  datatype Attachment = Attachment(filename: string)

  /**
   * `authorIsSelf` stands for `message.author == self.user`: the bot wrote
   * the message itself.
   */
  datatype IncomingMessage = IncomingMessage(authorIsSelf: bool, content: string, attachments: seq<Attachment>)
}
