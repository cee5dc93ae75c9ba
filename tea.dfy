/** The event loop's vocabulary: key presses, the messages delivered to
    `Update`, and the commands an update returns. */
module Tea {
  import opened Common

  /** A key press, by the kind the terminal reports. */
  datatype Key =
    | KeyUp | KeyDown | KeyLeft | KeyRight
    | KeyEnter | KeyEscape | KeyCtrlC | KeyCtrlD
    | KeyRunes(text: string)
    | KeyOther(name: string)

  /** The key's `String()`, on which the coordinator switches. */
  function KeyString(k: Key): string
  {
    match k
    case KeyUp => "up"
    case KeyDown => "down"
    case KeyLeft => "left"
    case KeyRight => "right"
    case KeyEnter => "enter"
    case KeyEscape => "esc"
    case KeyCtrlC => "ctrl+c"
    case KeyCtrlD => "ctrl+d"
    case KeyRunes(text) => text
    case KeyOther(name) => name
  }

  /** Every message `Update` can receive. `ErrorMsg` is a Go `error`
      delivered as a message. */
  datatype Msg =
    | KeyMsg(key: Key)
    | SettingsSubmitMsg(apiKey: string, llmModel: string)
    | ChatInputReturnMsg(value: string)
    | EscapeMsg
    | ListEnterMsg(index: nat)
    | ListSelectMsg(index: nat)
    | ListDeleteMsg(index: nat)
    | ForwardChatCompletionStreamMsg
    | SelectComponentMsg
    | FocusComponentMsg
    | ErrorMsg(err: Error)
    | WindowSizeMsg(width: int, height: int)
    | OtherMsg

  /** A command: nothing, quitting the program, delivering a message to
      `Update` on a later loop iteration, or a command of a terminal widget
      (cursor blink and the like) that the model does not look into. */
  datatype Cmd = NoCmd | Quit | Send(msg: Msg) | WidgetCmd
}
