/**
 * What the handlers send back through Telegram, recorded in the order the
 * calls are made. A send that the server rejects is not recorded.
 */
module Telegram {
  import opened Wrappers
  import opened Paths

  type UserId = int

  /** An inline keyboard button: its caption and its callback payload. */
  datatype Button = Button(caption: string, data: string)

  datatype Action =
    /** `message.answer(text, reply_markup=...)`; `keyboard` is a list of rows, empty for none */
    | Reply(to: UserId, text: string, keyboard: seq<seq<Button>>)
    /** `callback.message.edit_reply_markup()`: the buttons under the prompt disappear */
    | ClearKeyboard(to: UserId)
    /** `callback.answer()`: the button press is acknowledged */
    | AnswerCallback(to: UserId)
    /** `message.answer_audio(...)` */
    | Audio(to: UserId, file: Path, title: Option<string>, performer: string,
            duration: Option<int>, thumbnail: Option<Path>)

  /** The append-only log of outbound calls. */
  class Outbox {
    var sent: seq<Action>

    constructor ()
      ensures sent == []
    {
      sent := [];
    }

    method Send(a: Action)
      modifies this
      ensures sent == old(sent) + [a]
    {
      sent := sent + [a];
    }
  }
}
