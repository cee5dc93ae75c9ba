/** The chat input panel, as far as the coordinator relies on it: a text
    area whose value enter submits. */
module ChatInput {
  import opened Tea

  /** The text and the command after the input handles `msg`: typed text
      goes into a focused text area; ctrl+c and ctrl+d quit; enter empties
      the text area and submits what it held. */
  function Step(value: string, focused: bool, msg: Msg): (string, Cmd)
  {
    var typed := if focused && msg.KeyMsg? && msg.key.KeyRunes? then value + msg.key.text else value;
    if msg == KeyMsg(KeyCtrlC) || msg == KeyMsg(KeyCtrlD) then (typed, Quit)
    else if msg == KeyMsg(KeyEnter) then ("", Send(ChatInputReturnMsg(typed)))
    else (typed, WidgetCmd)
  }

  class ChatInputModel {
    var value: string
    var focused: bool

    /** `NewChatInputModel`: empty and not focused. */
    constructor ()
      ensures value == "" && !focused
    {
      value := "";
      focused := false;
    }

    method Focus() returns (cmd: Cmd)
      modifies this
      ensures focused && value == old(value) && cmd == WidgetCmd
    {
      focused := true;
      cmd := WidgetCmd;
    }

    method Blur()
      modifies this
      ensures !focused && value == old(value)
    {
      focused := false;
    }

    /** Typed text goes into the focused text area; ctrl+c and ctrl+d quit;
        enter empties the text area and submits what it held. */
    method Update(msg: Msg) returns (cmd: Cmd)
      modifies this
      ensures focused == old(focused)
      ensures (value, cmd) == Step(old(value), old(focused), msg)
      ensures msg == KeyMsg(KeyCtrlC) || msg == KeyMsg(KeyCtrlD) ==> cmd == Quit && value == old(value)
      ensures msg == KeyMsg(KeyEnter) ==> cmd == Send(ChatInputReturnMsg(old(value))) && value == ""
      ensures msg.KeyMsg? && msg.key.KeyRunes? ==>
                cmd == WidgetCmd && value == if old(focused) then old(value) + msg.key.text else old(value)
      ensures !(msg.KeyMsg? && (msg.key.KeyRunes? || msg.key in {KeyCtrlC, KeyCtrlD, KeyEnter})) ==>
                cmd == WidgetCmd && value == old(value)
    {
      // the text area's own update
      if focused && msg.KeyMsg? && msg.key.KeyRunes? {
        value := value + msg.key.text;
      }
      cmd := WidgetCmd;
      if msg == KeyMsg(KeyCtrlC) || msg == KeyMsg(KeyCtrlD) {
        cmd := Quit;
      } else if msg == KeyMsg(KeyEnter) {
        cmd := Send(ChatInputReturnMsg(value));
        value := "";
      }
    }
  }
}
