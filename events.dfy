/** The calls the bot makes to the chat platform, recorded in the order they are made. */
module Events {
  import opened Wrappers
  import opened Dispatch
  import opened Annotation

  /** Chat actions shown while the bot works. */
  const Typing: string := "typing"
  const UploadPhoto: string := "upload_photo"

  /** A background image job: the prompt message to delete afterwards, the file's URL and the chosen command. */
  datatype Job = Job(messageId: int, fileUrl: string, command: string)

  datatype Event =
    | SendMessage(text: string, replyTo: Option<int>, keyboard: Option<Keyboard>)
    | GetFile(fileId: string)
    | Spawn(job: Job)
    | AnswerCallbackQuery
    | EditMessageText(text: string)
    | ChatAction(action: string)
    | SendPhoto(canvas: Canvas, caption: string)
    | DeleteMessage(messageId: int)
}
