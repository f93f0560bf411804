/**
 * The chat-bot calls the adapter makes, as values. A send is described by
 * what is sent and to whom; whether the transport delivered it is an
 * `Outcome` supplied from outside, one per attempt.
 */
module Bot {
  import opened Wrappers

  /** A Telegram chat identifier (int64 in the service). */
  type ChatId = int

  datatype ParseMode = Plain | Markdown

  /** An inline keyboard button: its caption and the data it calls back with. */
  datatype Button = Button(text: string, callbackData: string)

  datatype Action =
    | SendMessage(chatId: ChatId, text: string, parseMode: ParseMode, keyboard: Option<seq<seq<Button>>>)
    | AnswerCallbackQuery(callbackQueryId: string, text: string, showAlert: bool)
    | SendPhoto(chatId: ChatId, photo: string, caption: string, parseMode: ParseMode)

  /** What the transport answered to one call: success, or the error it returned. */
  datatype Outcome = Delivered | Failed(reason: string)
}
