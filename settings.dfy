/** The first-run settings screen: one text input used twice, first for
    the API key and then for the model name, after which the pair is
    submitted to the coordinator. */
module Settings {
  import opened GoStrings
  import opened Tea

  datatype SettingsMode = SettingsModeApiKey | SettingsModeLlmModel

  const ApiKeyPlaceholder := "Enter your API key..."
  const LlmModelPlaceholder := "Enter your LLM model (default o3-mini)..."

  /** Everything the screen holds: the mode, the pending submission and the
      text input's value, focus and placeholder. */
  datatype Form = Form(mode: SettingsMode, apiKey: string, llmModel: string,
                       value: string, focused: bool, placeholder: string)

  /** Model mode is only reached with a captured, non-blank key. */
  predicate FormValid(f: Form)
  {
    f.mode == SettingsModeLlmModel ==> f.apiKey != ""
  }

  /** Enter: the trimmed value is the key in the first mode and the model
      name in the second; a blank value changes nothing. */
  function EnterStep(f: Form): (Form, Cmd)
  {
    var v := TrimSpace(f.value);
    if v == "" then (f, WidgetCmd)
    else if f.mode == SettingsModeApiKey then
      (f.(mode := SettingsModeLlmModel, apiKey := v, value := "", placeholder := LlmModelPlaceholder), WidgetCmd)
    else (f.(llmModel := v), Send(SettingsSubmitMsg(f.apiKey, v)))
  }

  /** The screen and the command after it handles `msg`: typed text goes
      into a focused input, enter is `EnterStep`, and escape, ctrl+c and
      ctrl+d quit. */
  function Step(f: Form, msg: Msg): (Form, Cmd)
  {
    var typed := if f.focused && msg.KeyMsg? && msg.key.KeyRunes? then f.(value := f.value + msg.key.text) else f;
    if msg == KeyMsg(KeyEnter) then EnterStep(typed)
    else if msg == KeyMsg(KeyEscape) || msg == KeyMsg(KeyCtrlC) || msg == KeyMsg(KeyCtrlD) then (typed, Quit)
    else (typed, WidgetCmd)
  }

  class SettingsModel {
    var mode: SettingsMode
    /** The pending submission. */
    var apiKey: string
    var llmModel: string
    /** The text input's value, focus and placeholder. */
    var value: string
    var focused: bool
    var placeholder: string

    ghost function Current(): Form
      reads this
    {
      Form(mode, apiKey, llmModel, value, focused, placeholder)
    }

    ghost predicate Valid()
      reads this
    {
      FormValid(Current())
    }

    /** `NewSettingsModel`: asks for the key first, nothing pending. */
    constructor ()
      ensures Valid()
      ensures mode == SettingsModeApiKey && apiKey == "" && llmModel == ""
      ensures value == "" && !focused && placeholder == ApiKeyPlaceholder
    {
      mode := SettingsModeApiKey;
      apiKey := "";
      llmModel := "";
      value := "";
      focused := false;
      placeholder := ApiKeyPlaceholder;
    }

    method Focus()
      modifies this
      ensures focused
      ensures mode == old(mode) && apiKey == old(apiKey) && llmModel == old(llmModel)
      ensures value == old(value) && placeholder == old(placeholder)
    {
      focused := true;
    }

    method Blur()
      modifies this
      ensures !focused
      ensures mode == old(mode) && apiKey == old(apiKey) && llmModel == old(llmModel)
      ensures value == old(value) && placeholder == old(placeholder)
    {
      focused := false;
    }

    /** Typed text goes into the focused input. On enter, a value that is
        blank after trimming is ignored; otherwise the first enter stores
        the key and asks for the model, and the second submits both.
        Escape, ctrl+c and ctrl+d quit in either mode. */
    method Update(msg: Msg) returns (cmd: Cmd)
      requires Valid()
      modifies this
      ensures Valid() && focused == old(focused)
      ensures (Current(), cmd) == Step(old(Current()), msg)
      ensures msg.KeyMsg? && msg.key.KeyRunes? && old(focused) ==>
                value == old(value) + msg.key.text && cmd == WidgetCmd
                && mode == old(mode) && apiKey == old(apiKey) && llmModel == old(llmModel)
      ensures msg == KeyMsg(KeyEnter) && TrimSpace(old(value)) == "" ==>
                cmd == WidgetCmd && mode == old(mode) && apiKey == old(apiKey)
                && llmModel == old(llmModel) && value == old(value) && placeholder == old(placeholder)
      ensures msg == KeyMsg(KeyEnter) && TrimSpace(old(value)) != "" && old(mode) == SettingsModeApiKey ==>
                mode == SettingsModeLlmModel && apiKey == TrimSpace(old(value)) && value == ""
                && placeholder == LlmModelPlaceholder && llmModel == old(llmModel) && cmd == WidgetCmd
      ensures msg == KeyMsg(KeyEnter) && TrimSpace(old(value)) != "" && old(mode) == SettingsModeLlmModel ==>
                mode == old(mode) && apiKey == old(apiKey) && llmModel == TrimSpace(old(value))
                && value == old(value) && placeholder == old(placeholder)
                && cmd == Send(SettingsSubmitMsg(old(apiKey), TrimSpace(old(value))))
      ensures msg == KeyMsg(KeyEscape) || msg == KeyMsg(KeyCtrlC) || msg == KeyMsg(KeyCtrlD) ==>
                cmd == Quit && mode == old(mode) && apiKey == old(apiKey) && llmModel == old(llmModel)
      ensures !msg.KeyMsg? ==>
                cmd == WidgetCmd && mode == old(mode) && apiKey == old(apiKey)
                && llmModel == old(llmModel) && value == old(value) && placeholder == old(placeholder)
      ensures cmd.Send? ==> cmd.msg.SettingsSubmitMsg? && cmd.msg.apiKey != "" && cmd.msg.llmModel != ""
    {
      // the text input's own update
      if focused && msg.KeyMsg? && msg.key.KeyRunes? {
        value := value + msg.key.text;
      }
      cmd := WidgetCmd;
      if msg == KeyMsg(KeyEnter) {
        cmd := Enter();
      } else if msg == KeyMsg(KeyEscape) || msg == KeyMsg(KeyCtrlC) || msg == KeyMsg(KeyCtrlD) {
        cmd := Quit;
      }
    }

    /** Enter: the trimmed value is the key in the first mode and the model
        name in the second; a blank value changes nothing. */
    method Enter() returns (cmd: Cmd)
      requires Valid()
      modifies this
      ensures Valid() && focused == old(focused)
      ensures (Current(), cmd) == EnterStep(old(Current()))
      ensures ghost var v := TrimSpace(old(value));
              if v == "" then
                cmd == WidgetCmd && mode == old(mode) && apiKey == old(apiKey)
                && llmModel == old(llmModel) && value == old(value) && placeholder == old(placeholder)
              else if old(mode) == SettingsModeApiKey then
                mode == SettingsModeLlmModel && apiKey == v && value == ""
                && placeholder == LlmModelPlaceholder && llmModel == old(llmModel) && cmd == WidgetCmd
              else
                mode == old(mode) && apiKey == old(apiKey) && llmModel == v
                && value == old(value) && placeholder == old(placeholder)
                && cmd == Send(SettingsSubmitMsg(old(apiKey), v))
    {
      var trimmed := TrimSpace(value);
      cmd := WidgetCmd;
      if trimmed != "" {
        if mode == SettingsModeApiKey {
          mode := SettingsModeLlmModel;
          placeholder := LlmModelPlaceholder;
          apiKey := trimmed;
          value := "";
        } else {
          llmModel := trimmed;
          cmd := Send(SettingsSubmitMsg(apiKey, llmModel));
        }
      }
    }
  }

  /** Two enters with a key and then a model name, each typed into the
      focused input of a fresh screen, submit exactly that pair, trimmed. */
  method TwoStepSubmission(key: string, model: string) returns (cmd: Cmd)
    requires TrimSpace(key) != "" && TrimSpace(model) != ""
    ensures cmd == Send(SettingsSubmitMsg(TrimSpace(key), TrimSpace(model)))
  {
    var s := new SettingsModel();
    s.Focus();
    var c := s.Update(KeyMsg(KeyRunes(key)));
    assert s.value == key;
    c := s.Update(KeyMsg(KeyEnter));
    assert s.apiKey == TrimSpace(key) && s.value == "";
    c := s.Update(KeyMsg(KeyRunes(model)));
    assert s.value == model;
    cmd := s.Update(KeyMsg(KeyEnter));
  }
}
