/** The session coordinator: one record holding the panels, the working set
    of threads (index 0 is the unsaved "New" slot), the messages of the
    active thread, the focus and the selection, and the error state; and
    the event handlers that act on it. The store, the language model, the
    clock, the id generator, the configuration file and the clipboard are
    outside: the store and the model are the interfaces of
    `Collaborators`, the rest arrive in an `Env`. */
module Ui {
  import opened Common
  import opened Records
  import opened Tea
  import opened Components
  import opened Collaborators
  import opened Handlers
  import Chat
  import List
  import ThreadItems
  import Settings
  import ChatInput

  /** The sizes and limits the program starts with. The panel sizes are
      the ones the layout arithmetic computes from the terminal size. */
  datatype Config = Config(
    initThreadsLimit: int,
    maxThreadsLimit: int,
    messagesLimit: int,
    width: int,
    height: int,
    llmModel: string,
    messagesWidth: int,
    messagesHeight: int)

  /** What the outside world answers during one event: the current time as
      formatted text, the next random id, the result of saving the
      configuration file, and whether the clipboard could be opened. */
  datatype Env = Env(now: string, newId: Result<string>, saveFault: Option<Error>, clipboardReady: bool)

  /** What `View` draws. */
  datatype Screen = ErrorScreen(text: string) | SettingsScreen | MainScreen

  /** The chat panel's entry for a stored message. */
  function ChatEntry(m: Message): (c: Chat.ChatMessage)
    ensures c.content == m.content && c.createdAt == m.createdAt
    ensures c.isUser <==> m.role == RoleUser
  {
    Chat.ChatMessage(m.content, m.createdAt, m.role == RoleUser)
  }

  /** The chat panel's entries for a list of messages. */
  function ChatView(ms: seq<Message>): (r: seq<Chat.ChatMessage>)
    ensures |r| == |ms|
    ensures forall i :: 0 <= i < |ms| ==> r[i] == ChatEntry(ms[i])
  {
    seq(|ms|, i requires 0 <= i < |ms| => ChatEntry(ms[i]))
  }

  lemma ChatViewSnoc(ms: seq<Message>, i: nat)
    requires i < |ms|
    ensures ChatView(ms[..i]) + [ChatEntry(ms[i])] == ChatView(ms[..i + 1])
  {
  }

  lemma ChatViewUpdate(ms: seq<Message>, i: nat, m: Message)
    requires i < |ms|
    ensures ChatView(ms[i := m]) == ChatView(ms)[i := ChatEntry(m)]
  {
  }

  /** The thread a first message creates. */
  function NewThread(id: string, value: string, now: string): (t: Thread)
    ensures t.id == id && t.name == ThreadName(value) && t.createdAt == now && t.updatedAt == now
  {
    Thread(id, ThreadName(value), now, now, false)
  }

  /** The assistant message after a continuation read `data` at `now`: the
      bytes are appended, and the timestamp is set once the first bytes
      arrive. */
  function Continued(last: Message, data: string, now: string, threadId: string): (m: Message)
    ensures m.role == RoleAssistant && m.threadId == threadId && m.id == ""
    ensures m.content == last.content + data
    ensures m.createdAt == if data != "" && last.createdAt == "" then now else last.createdAt
  {
    Message("", RoleAssistant, last.content + data,
            if data != "" && last.createdAt == "" then now else last.createdAt, threadId)
  }

  /** Everything a handler can change, in one value: the coordinator's own
      fields, the selection of the history list, the focus of the two text
      inputs, what has been written to the store and asked of the model. */
  datatype Snapshot = Snapshot(
    showSettings: bool,
    userConfig: Option<UserConfig>,
    focused: Component,
    selected: Component,
    threads: seq<Thread>,
    activeThreadIndex: nat,
    messages: seq<Message>,
    activeStream: ReadCloser?,
    errorState: Option<Error>,
    historyIndex: int,
    inputValue: string,
    inputFocused: bool,
    settings: Settings.Form,
    upserted: seq<Thread>,
    created: seq<Message>,
    queries: seq<Query>,
    llmApiKey: string,
    llmRequests: seq<(string, string)>)

  /** `setFocusedComponent(c)`: the focus moves to `c`; focusing the chat
      input focuses its text area, focusing the history selects the active
      thread again. */
  function Focused(s: Snapshot, c: Component): Snapshot
  {
    s.(focused := c,
       historyIndex := if c == ComponentHistory then s.activeThreadIndex else s.historyIndex,
       inputFocused := if c == ComponentChatInput then true else s.inputFocused)
  }

  /** `handleKeyMsg` with nothing focused: enter focuses the selected
      panel; any other key can only move the selection. */
  function AfterKey(s: Snapshot, key: string): Snapshot
  {
    if key == "enter" then Focused(s, s.selected)
    else s.(selected := NextSelection(s.selected, key))
  }

  /** The command `handleKeyMsg` returns. */
  function KeyCmd(key: string): Cmd
  {
    if key == "enter" then Send(FocusComponentMsg)
    else if key == "ctrl+c" || key == "ctrl+d" then Quit
    else Send(SelectComponentMsg)
  }

  /** `Init`: the settings screen when it is shown, the chat input
      otherwise, takes both the focus and the selection. */
  function Initialised(s: Snapshot): Snapshot
  {
    if s.showSettings then s.(focused := ComponentSettings, selected := ComponentSettings, settings := s.settings.(focused := true))
    else s.(focused := ComponentChatInput, selected := ComponentChatInput, settings := s.settings.(focused := false),
            inputFocused := true)
  }

  /** The state after the first steps of a submission: on the "New" slot a
      thread named after the input is created and inserted behind it, and
      becomes the active thread. */
  function WithThreadFor(s: Snapshot, value: string, id: string, now: string): (r: Snapshot)
    requires |s.threads| >= 1
    ensures s.activeThreadIndex < |s.threads| ==> r.activeThreadIndex < |r.threads|
    ensures r.activeStream == s.activeStream && r.messages == s.messages
  {
    if s.activeThreadIndex == 0 then
      var t := NewThread(id, value, now);
      s.(threads := InsertAt(s.threads, 1, t), activeThreadIndex := 1, historyIndex := 1,
         upserted := s.upserted + [t])
    else s
  }

  /** The answers the collaborators are set to give: the store's write
      faults and message page, the model client's key fault and stream. */
  datatype Answers = Answers(upsertFault: Option<Error>, createFault: Option<Error>,
                             messagesAnswer: Result<seq<Message>>, setKeyFault: Option<Error>,
                             streamAnswer: Result<seq<ReadStep>>)

  /** The active stream as far as the handlers see it: the steps it has
      still to give and whether it is closed. */
  datatype Reader = Reader(steps: seq<ReadStep>, closed: bool)

  /** What one event leaves: the record, the command, the text written to
      the clipboard, and the active stream. */
  datatype Outcome = Outcome(state: Snapshot, cmd: Cmd, copied: Option<string>, reader: Reader)

  /** The panels that handle an event themselves before the coordinator. */
  const Panels := {ComponentSettings, ComponentHistory, ComponentMessages, ComponentChatInput}

  /** The focused panel's own handling of `msg`: the settings screen, the
      history's selection or the chat input's text change as that panel
      says, the messages panel only answers; with no panel focused nothing
      happens. Only the focused panel's part of the record can change. */
  function PanelStep(s: Snapshot, msg: Msg): (r: (Snapshot, Cmd))
    requires s.historyIndex >= -1
    ensures r.0 == s.(historyIndex := r.0.historyIndex, inputValue := r.0.inputValue, settings := r.0.settings)
    ensures r.0.historyIndex >= -1
  {
    match s.focused
    case ComponentSettings =>
      var (f, c) := Settings.Step(s.settings, msg);
      (s.(settings := f), c)
    case ComponentHistory =>
      var (i, c) := List.Step(s.historyIndex, |s.threads|, msg);
      (s.(historyIndex := i), c)
    case ComponentMessages => (s, Chat.Step(msg))
    case ComponentChatInput =>
      var (v, c) := ChatInput.Step(s.inputValue, s.inputFocused, msg);
      (s.(inputValue := v), c)
    case _ => (s, NoCmd)
  }

  /** An event that is not a key press leaves the snapshot unchanged and
      is answered with the focused widget's command. A focused messages
      panel still takes a new terminal size, which the snapshot does not
      hold (`UpdateMessages` states it). */
  lemma PanelIgnoresOtherEvents(s: Snapshot, msg: Msg)
    requires s.historyIndex >= -1 && !msg.KeyMsg?
    ensures PanelStep(s, msg) == (s, if s.focused in Panels then WidgetCmd else NoCmd)
  {
  }

  /** `handleSettingsSubmitMsg`: saves the key and the model, hands the
      key to the model, hides the settings screen and starts over; an
      error from saving or from the model stops with nothing changed. */
  function SettingsSubmitted(s: Snapshot, apiKey: string, llmModel: string, env: Env, setKeyFault: Option<Error>): (r: (Snapshot, Cmd))
    ensures r.0.errorState == s.errorState && r.0.activeStream == s.activeStream
  {
    if env.saveFault.Some? then (s, Send(ErrorMsg(Wrapped("config.Save: ", env.saveFault.value))))
    else if setKeyFault.Some? then (s, Send(ErrorMsg(Wrapped("llm.SetAPIKey: ", setKeyFault.value))))
    else (Initialised(s.(showSettings := false, userConfig := Some(SavedConfig(apiKey, llmModel)), llmApiKey := apiKey)),
          WidgetCmd)
  }

  /** `handleChatInputReturnMsg`: refuses an active index outside the
      working set; on the "New" slot first creates a thread named after the
      input and makes it active at index 1; then persists the user message,
      shows it, asks the model for a stream with the configured model and
      shows an empty assistant message for the stream to fill, which
      becomes the active stream. Each failure stops right there. */
  function ChatInputReturned(s: Snapshot, value: string, env: Env, a: Answers, r: Reader, stream: ReadCloser?): (o: (Snapshot, Cmd, Reader))
    requires s.userConfig.Some?
    ensures o.0.errorState == s.errorState
  {
    if s.activeThreadIndex >= |s.threads| then (s, Send(ErrorMsg(InvalidActiveThreadIndex)), r)
    else if s.activeThreadIndex == 0 && env.newId.Err? then
      (s, Send(ErrorMsg(Wrapped("createNewThread: ", Wrapped("utils.RandomID: ", env.newId.error)))), r)
    else if s.activeThreadIndex == 0 && a.upsertFault.Some? then
      (s, Send(ErrorMsg(Wrapped("createNewThread: ", a.upsertFault.value))), r)
    else Sent(WithThreadFor(s, value, if env.newId.Ok? then env.newId.value else "", env.now), value, env.now, a, r, stream)
  }

  /** The rest of a submission, once thread `t.activeThreadIndex` is
      active: the user message is persisted and shown, then the stream is
      asked for with the configured model and an empty assistant message
      shown for it to fill, which becomes the active stream. */
  function Sent(t: Snapshot, value: string, now: string, a: Answers, r: Reader, stream: ReadCloser?): (o: (Snapshot, Cmd, Reader))
    requires t.userConfig.Some? && t.activeThreadIndex < |t.threads|
    ensures o.0.errorState == t.errorState
  {
    var user := Message("", RoleUser, value, now, t.threads[t.activeThreadIndex].id);
    if a.createFault.Some? then (t, Send(ErrorMsg(Wrapped("store.CreateMessage: ", a.createFault.value))), r)
    else Opened(t.(messages := t.messages + [user], created := t.created + [user]), value, user.threadId, a, r, stream)
  }

  /** The stream for `value` is asked for with the configured model; once
      open, an empty assistant message of thread `threadId` is shown for it
      to fill and it becomes the active stream. */
  function Opened(t: Snapshot, value: string, threadId: string, a: Answers, r: Reader, stream: ReadCloser?): (o: (Snapshot, Cmd, Reader))
    requires t.userConfig.Some?
    ensures o.0.errorState == t.errorState
  {
    var request := (t.userConfig.value.llmModel, value);
    if a.streamAnswer.Err? then
      (t.(llmRequests := t.llmRequests + [request]),
       Send(ErrorMsg(Wrapped("llm.CreateChatCompletionStream: ", a.streamAnswer.error))), r)
    else
      (t.(messages := t.messages + [Message("", RoleAssistant, "", "", threadId)],
          llmRequests := t.llmRequests + [request], activeStream := stream),
       Send(ForwardChatCompletionStreamMsg), Reader(a.streamAnswer.value, false))
  }

  /** `handleEscapeMsg`, as intended: the focus goes to None and the panel
      that had it is blurred (the messages panel has nothing to blur). */
  function Escaped(s: Snapshot): (r: Snapshot)
    ensures r.errorState == s.errorState && r.activeStream == s.activeStream
  {
    var blurred := EscapeBlurs(s.focused);
    s.(focused := ComponentNone,
       historyIndex := if blurred == Some(ComponentHistory) then -1 else s.historyIndex,
       inputFocused := if blurred == Some(ComponentChatInput) then false else s.inputFocused)
  }

  /** `handleListEnterMsg`: in the history, enter on the "New" slot clears
      the messages and moves to the chat input, enter on a thread moves to
      the messages panel; in the messages panel, enter copies the message's
      text to the clipboard when it can be opened. */
  function ListEntered(s: Snapshot, index: nat, env: Env): (r: (Snapshot, Cmd, Option<string>))
    ensures r.0.errorState == s.errorState && r.0.activeStream == s.activeStream
  {
    if s.focused == ComponentHistory then
      if index == 0 then (Focused(s.(messages := [], selected := ComponentChatInput), ComponentChatInput), NoCmd, None)
      else (Focused(s.(selected := ComponentMessages), ComponentMessages), NoCmd, None)
    else if s.focused == ComponentMessages && env.clipboardReady then
      if index >= |s.messages| then (s, Send(ErrorMsg(InvalidMessageIndex)), None)
      else (s, NoCmd, Some(s.messages[index].content))
    else (s, NoCmd, None)
  }

  /** `handleListSelectMsg`: moving in the history makes the thread under
      the cursor active, even when the index is out of range, which is then
      reported; otherwise the first `limit` messages of that thread are
      asked of the store and loaded. */
  function ListSelected(s: Snapshot, index: nat, answer: Result<seq<Message>>, limit: int): (r: (Snapshot, Cmd))
    ensures r.0.errorState == s.errorState && r.0.activeStream == s.activeStream
  {
    if s.focused != ComponentHistory then (s, NoCmd)
    else
      var t := s.(activeThreadIndex := index, historyIndex := index);
      if index >= |s.threads| then (t, Send(ErrorMsg(InvalidThreadIndex)))
      else
        var asked := t.(queries := s.queries + [ThreadMessagesQuery(s.threads[index].id, 0, limit)]);
        if answer.Err? then (asked, Send(ErrorMsg(answer.error)))
        else (asked.(messages := answer.value), NoCmd)
  }

  /** `handleForwardChatCompletionStreamMsg`: one step of the stream. Reads
      at most sixteen bytes; an error other than end of stream stops before
      anything is updated, dropping what that read gave. Otherwise the
      bytes are appended to the last message, which is replaced as an
      assistant message of the active thread; at end of stream the stream
      is closed and the message persisted, and no further step follows. */
  function Forwarded(s: Snapshot, r: Reader, env: Env, createFault: Option<Error>): (o: (Snapshot, Cmd, Reader))
    ensures o.0.errorState == s.errorState
  {
    if s.activeThreadIndex >= |s.threads| then (s, Send(ErrorMsg(InvalidActiveThreadIndex)), r)
    else if LlmIndexRejected(|s.messages|) then (s, Send(ErrorMsg(BadLlmMessageIndex)), r)
    else
      var (data, e) := StepOutcome(r.steps, ReadBufferSize);
      var rest := r.(steps := if r.steps == [] then [] else r.steps[1..]);
      var i := |s.messages| - 1;
      var updated := Continued(s.messages[i], data, env.now, s.threads[s.activeThreadIndex].id);
      if e.Some? && !Is(e.value, Eof) then (s, Send(ErrorMsg(Wrapped("activeLLMStream.Read: ", e.value))), rest)
      else if e.Some? then
        (s.(messages := s.messages[i := updated],
            created := if createFault.None? then s.created + [updated] else s.created),
         if createFault.None? then NoCmd else Send(ErrorMsg(Wrapped("store.CreateMessage: ", createFault.value))),
         rest.(closed := true))
      else (s.(messages := s.messages[i := updated]), Send(ForwardChatCompletionStreamMsg), rest)
  }

  /** The coordinator's own handling of `msg`, after the focused panel
      answered it with `panelCmd`: its messages go to their handlers, whose
      command replaces the panel's (escape keeps it); an error becomes the
      error state; any other event changes nothing. `limit` is the page
      size for a thread's messages, `stream` the reader a new stream is
      given. */
  function Handled(s: Snapshot, msg: Msg, env: Env, a: Answers, limit: int, panelCmd: Cmd, r: Reader, stream: ReadCloser?): Outcome
    requires msg.ChatInputReturnMsg? ==> s.userConfig.Some?
  {
    match msg
    case SettingsSubmitMsg(apiKey, llmModel) =>
      var (t, c) := SettingsSubmitted(s, apiKey, llmModel, env, a.setKeyFault);
      Outcome(t, c, None, r)
    case ChatInputReturnMsg(value) =>
      var (t, c, r2) := ChatInputReturned(s, value, env, a, r, stream);
      Outcome(t, c, None, r2)
    case EscapeMsg => Outcome(Escaped(s), panelCmd, None, r)
    case ListEnterMsg(index) =>
      var (t, c, copied) := ListEntered(s, index, env);
      Outcome(t, c, copied, r)
    case ListSelectMsg(index) =>
      var (t, c) := ListSelected(s, index, a.messagesAnswer, limit);
      Outcome(t, c, None, r)
    case ForwardChatCompletionStreamMsg =>
      var (t, c, r2) := Forwarded(s, r, env, a.createFault);
      Outcome(t, c, None, r2)
    case ErrorMsg(e) => Outcome(s.(errorState := Some(e)), panelCmd, None, r)
    case _ => Outcome(s, panelCmd, None, r)
  }

  /** Only an error event changes the error state, only a list enter
      writes to the clipboard, and only a submission from the chat input
      and a stream step touch the active stream. */
  lemma HandledFrames(s: Snapshot, msg: Msg, env: Env, a: Answers, limit: int, panelCmd: Cmd, r: Reader, stream: ReadCloser?)
    requires msg.ChatInputReturnMsg? ==> s.userConfig.Some?
    ensures var o := Handled(s, msg, env, a, limit, panelCmd, r, stream);
            (o.state.errorState != s.errorState ==> msg.ErrorMsg?)
            && (o.copied.Some? ==> msg.ListEnterMsg?)
            && (o.reader != r ==> msg.ChatInputReturnMsg? || msg.ForwardChatCompletionStreamMsg?)
  {
    match msg
    case SettingsSubmitMsg(apiKey, llmModel) =>
    case ChatInputReturnMsg(value) =>
    case ListEnterMsg(index) =>
    case ListSelectMsg(index) =>
    case ForwardChatCompletionStreamMsg =>
    case _ =>
  }

  class Model {
    const conf: Config
    var userConfig: Option<UserConfig>
    var showSettings: bool

    const chat: Chat.ChatModel
    const history: List.ListModel
    const input: ChatInput.ChatInputModel
    const settings: Settings.SettingsModel

    var threads: seq<Thread>
    var activeThreadIndex: nat
    var messages: seq<Message>
    var activeStream: ReadCloser?

    var focused: Component
    var selected: Component

    const store: ConversationStore
    const llm: Llm

    var errorState: Option<Error>

    /** The panels are consistent with the working fields: the history
        lists the working set, whose first entry is the "New" slot, and the
        chat panel shows one entry per message. */
    ghost predicate Valid()
      reads this, chat, history, settings
    {
      history.Valid() && settings.Valid()
      && |threads| >= 1 && threads[0] == NewThreadSlot
      && history.items == ThreadItems.NewThreadListItems(threads)
      && chat.messages == ChatView(messages)
    }

    ghost function State(): Snapshot
      reads this, history, input, settings, store, llm
    {
      Snapshot(showSettings, userConfig, focused, selected, threads, activeThreadIndex, messages,
               activeStream, errorState, history.index, input.value, input.focused, settings.Current(),
               store.upserted, store.created, store.queries, llm.apiKey, llm.requests)
    }

    /** The answers the collaborators are set to give. */
    ghost function Given(): Answers
      reads store, llm
    {
      Answers(store.upsertFault, store.createFault, store.messagesAnswer, llm.setKeyFault, llm.streamAnswer)
    }

    /** The active stream's remaining steps and whether it is closed. */
    ghost function ReaderState(): Reader
      reads this, activeStream
    {
      if activeStream == null then Reader([], false) else Reader(activeStream.steps, activeStream.closed)
    }

    /** The record `New` builds once the configuration and the first page
        of threads are known: nothing focused yet, the "New" slot active
        and selected in the history, no messages. */
    constructor (conf: Config, store: ConversationStore, llm: Llm, userConfig: Option<UserConfig>,
                 showSettings: bool, threads: seq<Thread>)
      requires |threads| >= 1 && threads[0] == NewThreadSlot
      ensures Valid() && fresh(chat) && fresh(history) && fresh(input) && fresh(settings)
      ensures this.conf == conf && this.store == store && this.llm == llm
      ensures this.userConfig == userConfig && this.showSettings == showSettings && this.threads == threads
      ensures activeThreadIndex == 0 && messages == [] && activeStream == null && errorState == None
      ensures focused == ComponentUnset && selected == ComponentUnset
      ensures history.index == 0 && input.value == "" && !input.focused && !settings.focused
      ensures settings.mode == Settings.SettingsModeApiKey && settings.apiKey == ""
      ensures chat.width == conf.messagesWidth && chat.height == conf.messagesHeight
    {
      this.conf := conf;
      this.store := store;
      this.llm := llm;
      this.userConfig := userConfig;
      this.showSettings := showSettings;
      this.threads := threads;
      activeThreadIndex := 0;
      messages := [];
      activeStream := null;
      errorState := None;
      focused := ComponentUnset;
      selected := ComponentUnset;
      settings := new Settings.SettingsModel();
      history := new List.ListModel("History", ThreadItems.NewThreadListItems(threads));
      chat := new Chat.ChatModel(conf.messagesWidth, conf.messagesHeight);
      input := new ChatInput.ChatInputModel();
      new;
      history.Select(0);
    }

    /** `New`: refuses a zero width or height; a missing configuration file
        means the settings screen is shown first, any other failure to load
        it is an error; a loaded key is handed to the model; the working set
        is the "New" slot followed by the store's latest threads, in the
        order the store returns them. */
    static method New(conf: Config, store: ConversationStore, llm: Llm, loaded: Result<UserConfig>)
      returns (m: Model?, err: Option<Error>)
      modifies store, llm
      ensures m == null <==> err.Some?
      ensures conf.width == 0 || conf.height == 0 ==> err == Some(InvalidConfig) && unchanged(llm)
      ensures conf.width != 0 && conf.height != 0 && loaded.Err? && !Is(loaded.error, ConfigNotFound) ==>
                err == Some(Wrapped("config.Load ", loaded.error))
      ensures conf.width != 0 && conf.height != 0 && loaded.Ok? && old(llm.setKeyFault).Some? ==>
                err == Some(Wrapped("llm.SetAPIKey ", old(llm.setKeyFault).value))
      ensures m == null ==> llm.requests == old(llm.requests)
      ensures m != null ==>
                fresh(m) && m.Valid() && m.conf == conf && m.store == store && m.llm == llm
                && (m.showSettings <==> loaded.Err?)
                && m.userConfig == (if loaded.Ok? then Some(loaded.value) else None)
                && store.threadsAnswer.Ok? && m.threads == [NewThreadSlot] + store.threadsAnswer.value
                && m.activeThreadIndex == 0 && m.messages == [] && m.errorState == None
                && m.history.index == 0
                && llm.apiKey == (if loaded.Ok? then loaded.value.llmApiKey else old(llm.apiKey))
                && llm.requests == old(llm.requests)
      ensures conf.width != 0 && conf.height != 0 && (loaded.Ok? ==> old(llm.setKeyFault).None?)
              && (loaded.Err? ==> Is(loaded.error, ConfigNotFound)) ==>
                (m == null <==> store.threadsAnswer.Err?)
                && (store.threadsAnswer.Err? ==> err == Some(Wrapped("store.ListLatestThreadsPaginated ", store.threadsAnswer.error)))
      ensures store.queries ==
                old(store.queries)
                + if conf.width != 0 && conf.height != 0 && (loaded.Ok? ==> old(llm.setKeyFault).None?)
                     && (loaded.Err? ==> Is(loaded.error, ConfigNotFound))
                  then [LatestThreadsQuery(0, conf.initThreadsLimit)] else []
      ensures store.upserted == old(store.upserted) && store.created == old(store.created)
      ensures store.threadsAnswer == old(store.threadsAnswer) && store.messagesAnswer == old(store.messagesAnswer)
      ensures store.upsertFault == old(store.upsertFault) && store.createFault == old(store.createFault)
    {
      if conf.width == 0 || conf.height == 0 {
        return null, Some(InvalidConfig);
      }
      var showSettings := false;
      var userConfig: Option<UserConfig> := None;
      if loaded.Err? {
        if !Is(loaded.error, ConfigNotFound) {
          return null, Some(Wrapped("config.Load ", loaded.error));
        }
        showSettings := true;
      } else {
        userConfig := Some(loaded.value);
        var e := llm.SetAPIKey(loaded.value.llmApiKey);
        if e.Some? {
          return null, Some(Wrapped("llm.SetAPIKey ", e.value));
        }
      }
      var page := store.ListLatestThreadsPaginated(0, conf.initThreadsLimit);
      if page.Err? {
        return null, Some(Wrapped("store.ListLatestThreadsPaginated ", page.error));
      }
      m := new Model(conf, store, llm, userConfig, showSettings, [NewThreadSlot] + page.value);
      err := None;
    }

    /** `setThreads`: the working set and the history list change together. */
    method SetThreads(ts: seq<Thread>)
      requires Valid() && |ts| >= 1 && ts[0] == NewThreadSlot
      modifies this, history
      ensures Valid() && State() == old(State()).(threads := ts)
    {
      threads := ts;
      history.SetItems(ThreadItems.NewThreadListItems(ts));
    }

    /** `setMessages`: replaces the list and rebuilds the chat panel, one
        entry per message in the same order. */
    method SetMessages(ms: seq<Message>)
      requires Valid()
      modifies this, chat
      ensures Valid() && State() == old(State()).(messages := ms)
      ensures chat.width == old(chat.width) && chat.height == old(chat.height)
    {
      messages := ms;
      chat.ResetMessages();
      for i := 0 to |ms|
        modifies chat
        invariant chat.messages == ChatView(ms[..i])
        invariant chat.width == old(chat.width) && chat.height == old(chat.height)
      {
        chat.AddMessage(ChatEntry(ms[i]));
        ChatViewSnoc(ms, i);
      }
      assert ms[..|ms|] == ms;
    }

    /** `setActiveThreadIndex`: the active thread and the history's
        selection change together. */
    method SetActiveThreadIndex(index: nat)
      requires Valid()
      modifies this, history
      ensures Valid() && State() == old(State()).(activeThreadIndex := index, historyIndex := index)
    {
      activeThreadIndex := index;
      history.Select(index);
    }

    /** `setSelectedComponent`: only a laid-out panel can be selected. */
    method SetSelectedComponent(c: Component)
      requires Valid()
      modifies this
      ensures Valid() && State() == old(State()).(selected := if c in Layout then c else old(selected))
    {
      if c in Layout {
        selected := c;
      }
    }

    /** `setFocusedComponent`. The messages panel has nothing to focus. */
    method SetFocusedComponent(c: Component)
      requires Valid()
      modifies this, history, input
      ensures Valid() && State() == Focused(old(State()), c)
    {
      focused := c;
      if c == ComponentChatInput {
        var _ := input.Focus();
      } else if c == ComponentHistory {
        history.Focus();
        history.Select(activeThreadIndex);
      }
    }

    /** `Init`. */
    method Init() returns (cmd: Cmd)
      requires Valid()
      modifies this, settings, input
      ensures Valid() && State() == Initialised(old(State())) && cmd == WidgetCmd
    {
      if showSettings {
        focused := ComponentSettings;
        selected := ComponentSettings;
        settings.Focus();
        return WidgetCmd;
      }
      settings.Blur();
      focused := ComponentChatInput;
      selected := ComponentChatInput;
      cmd := input.Focus();
    }

    /** `View`: an error hides everything else; then the settings screen. */
    method View() returns (s: Screen)
      ensures errorState.Some? ==> s == ErrorScreen("Error: " + Text(errorState.value))
      ensures errorState.None? && showSettings ==> s == SettingsScreen
      ensures errorState.None? && !showSettings ==> s == MainScreen
    {
      if errorState.Some? {
        return ErrorScreen("Error: " + Text(errorState.value));
      }
      if showSettings {
        return SettingsScreen;
      }
      s := MainScreen;
    }

    /** `handleKeyMsg`: the arrows and vi keys move the selection along the
        layout's adjacency, enter focuses the selected panel, ctrl+c and
        ctrl+d quit. */
    method HandleKeyMsg(key: Key) returns (cmd: Cmd)
      requires Valid()
      modifies this, history, input
      ensures Valid() && State() == AfterKey(old(State()), KeyString(key)) && cmd == KeyCmd(KeyString(key))
    {
      var k := KeyString(key);
      match KeyDirection(k) {
        case Some(d) =>
          var target := Neighbour(d, selected);
          NeighbourIsAdjacent(d, selected, if target.Some? then target.value else selected);
          if target.Some? {
            SetSelectedComponent(target.value);
          }
        case None =>
          if k == "enter" {
            SetFocusedComponent(selected);
            return Send(FocusComponentMsg);
          } else if k == "ctrl+c" || k == "ctrl+d" {
            return Quit;
          }
      }
      cmd := Send(SelectComponentMsg);
    }

    /** `createNewThread`: a thread with a fresh id, created now, upserted
        into the store. */
    method CreateNewThread(value: string, env: Env) returns (r: Result<Thread>)
      modifies store
      ensures env.newId.Err? ==> r == Err(Wrapped("utils.RandomID: ", env.newId.error)) && unchanged(store)
      ensures env.newId.Ok? && old(store.upsertFault).Some? ==>
                r == Err(old(store.upsertFault).value) && store.upserted == old(store.upserted)
      ensures env.newId.Ok? && old(store.upsertFault).None? ==>
                r == Ok(NewThread(env.newId.value, value, env.now))
                && store.upserted == old(store.upserted) + [r.value]
      ensures store.created == old(store.created)
      ensures store.upsertFault == old(store.upsertFault) && store.createFault == old(store.createFault)
      ensures store.threadsAnswer == old(store.threadsAnswer) && store.messagesAnswer == old(store.messagesAnswer)
      ensures store.queries == old(store.queries)
    {
      if env.newId.Err? {
        return Err(Wrapped("utils.RandomID: ", env.newId.error));
      }
      var thread := NewThread(env.newId.value, value, env.now);
      var e := store.UpsertThread(thread);
      if e.Some? {
        return Err(e.value);
      }
      r := Ok(thread);
    }

    /** `handleSettingsSubmitMsg`, as `SettingsSubmitted` says. */
    method HandleSettingsSubmitMsg(apiKey: string, llmModel: string, env: Env) returns (cmd: Cmd)
      requires Valid()
      modifies this, settings, input, llm
      ensures Valid()
      ensures (State(), cmd) == SettingsSubmitted(old(State()), apiKey, llmModel, env, old(llm.setKeyFault))
    {
      if env.saveFault.Some? {
        return Send(ErrorMsg(Wrapped("config.Save: ", env.saveFault.value)));
      }
      var saved := SavedConfig(apiKey, llmModel);
      var e := llm.SetAPIKey(apiKey);
      if e.Some? {
        return Send(ErrorMsg(Wrapped("llm.SetAPIKey: ", e.value)));
      }
      showSettings := false;
      userConfig := Some(saved);
      cmd := Init();
    }

    /** The thread a submission goes to: the active one, or, on the "New"
        slot, a thread created for it, inserted behind the slot and made
        active. */
    method PrepareThread(value: string, env: Env) returns (err: Option<Error>)
      requires Valid() && activeThreadIndex < |threads|
      modifies this, history, store
      ensures Valid() && activeThreadIndex < |threads|
      ensures store.upsertFault == old(store.upsertFault) && store.createFault == old(store.createFault)
      ensures err.None? <==> (old(activeThreadIndex) == 0 ==> env.newId.Ok? && old(store.upsertFault).None?)
      ensures err.Some? ==> State() == old(State())
      ensures old(activeThreadIndex) == 0 && env.newId.Err? ==>
                err == Some(Wrapped("createNewThread: ", Wrapped("utils.RandomID: ", env.newId.error)))
      ensures old(activeThreadIndex) == 0 && env.newId.Ok? && old(store.upsertFault).Some? ==>
                err == Some(Wrapped("createNewThread: ", old(store.upsertFault).value))
      ensures err.None? ==>
                State() == WithThreadFor(old(State()), value, if env.newId.Ok? then env.newId.value else "", env.now)
    {
      err := None;
      if activeThreadIndex == 0 {
        var r := CreateNewThread(value, env);
        if r.Err? {
          return Some(Wrapped("createNewThread: ", r.error));
        }
        InsertBehindSlot(threads, r.value);
        SetThreads(InsertAt(threads, 1, r.value));
        SetActiveThreadIndex(1);
      }
    }

    /** The rest of a submission, once its thread is active: the user
        message is persisted and shown, then the stream is opened. */
    method SendUserMessage(value: string, env: Env) returns (cmd: Cmd)
      requires Valid() && activeThreadIndex < |threads| && userConfig.Some?
      modifies this, chat, store, llm
      ensures Valid()
      ensures (State(), cmd, ReaderState()) == Sent(old(State()), value, env.now, old(Given()), old(ReaderState()), activeStream)
      ensures cmd == Send(ForwardChatCompletionStreamMsg) ==> activeStream != null && fresh(activeStream)
    {
      var active := threads[activeThreadIndex];
      var user := Message("", RoleUser, value, env.now, active.id);
      var e := store.CreateMessage(user);
      if e.Some? {
        return Send(ErrorMsg(Wrapped("store.CreateMessage: ", e.value)));
      }
      SetMessages(messages + [user]);
      cmd := OpenStream(value, active.id);
    }

    /** Opens the stream for `value` with the configured model and shows an
        empty assistant message of thread `threadId` for it to fill. */
    method OpenStream(value: string, threadId: string) returns (cmd: Cmd)
      requires Valid() && userConfig.Some?
      modifies this, chat, llm
      ensures Valid()
      ensures (State(), cmd, ReaderState()) == Opened(old(State()), value, threadId, old(Given()), old(ReaderState()), activeStream)
      ensures cmd == Send(ForwardChatCompletionStreamMsg) ==> activeStream != null && fresh(activeStream)
    {
      var reader, e := llm.CreateChatCompletionStream(userConfig.value.llmModel, value);
      if e.Some? {
        return Send(ErrorMsg(Wrapped("llm.CreateChatCompletionStream: ", e.value)));
      }
      activeStream := reader;
      SetMessages(messages + [Message("", RoleAssistant, "", "", threadId)]);
      cmd := Send(ForwardChatCompletionStreamMsg);
    }

    /** `handleChatInputReturnMsg`, as `ChatInputReturned` says; the
        stream it opens is a fresh reader. */
    method HandleChatInputReturnMsg(value: string, env: Env) returns (cmd: Cmd)
      requires Valid() && userConfig.Some?
      modifies this, history, chat, store, llm
      ensures Valid()
      ensures (State(), cmd, ReaderState()) ==
                ChatInputReturned(old(State()), value, env, old(Given()), old(ReaderState()), activeStream)
      ensures cmd == Send(ForwardChatCompletionStreamMsg) ==> activeStream != null && fresh(activeStream)
    {
      if activeThreadIndex >= |threads| {
        return Send(ErrorMsg(InvalidActiveThreadIndex));
      }
      var err := PrepareThread(value, env);
      if err.Some? {
        return Send(ErrorMsg(err.value));
      }
      cmd := SendUserMessage(value, env);
    }

    /** `handleEscapeMsg`, as intended: as `Escaped` says. */
    method HandleEscapeMsg()
      requires Valid()
      modifies this, history, input
      ensures Valid() && State() == Escaped(old(State()))
    {
      var target := EscapeBlurs(focused);
      focused := ComponentNone;
      if target == Some(ComponentChatInput) {
        input.Blur();
      } else if target == Some(ComponentHistory) {
        history.Blur();
      }
    }

    /** `handleListEnterMsg`, as `ListEntered` says; `copied` is what is
        written to the clipboard. */
    method HandleListEnterMsg(index: nat, env: Env) returns (cmd: Cmd, copied: Option<string>)
      requires Valid()
      modifies this, history, input, chat
      ensures Valid() && (State(), cmd, copied) == ListEntered(old(State()), index, env)
    {
      cmd, copied := NoCmd, None;
      if focused == ComponentHistory {
        if index == 0 {
          SetMessages([]);
          SetSelectedComponent(ComponentChatInput);
          SetFocusedComponent(ComponentChatInput);
          return;
        }
        SetSelectedComponent(ComponentMessages);
        SetFocusedComponent(ComponentMessages);
      } else if focused == ComponentMessages {
        if env.clipboardReady {
          if index >= |messages| {
            return Send(ErrorMsg(InvalidMessageIndex)), None;
          }
          copied := Some(messages[index].content);
        }
      }
    }

    /** `handleListSelectMsg`, as `ListSelected` says. */
    method HandleListSelectMsg(index: nat) returns (cmd: Cmd)
      requires Valid()
      modifies this, history, chat, store
      ensures Valid()
      ensures (State(), cmd) == ListSelected(old(State()), index, old(store.messagesAnswer), conf.messagesLimit)
    {
      if focused != ComponentHistory {
        return NoCmd;
      }
      SetActiveThreadIndex(index);
      if |threads| == 0 || index >= |threads| {
        return Send(ErrorMsg(InvalidThreadIndex));
      }
      var r := store.ListMessagesByThreadIDPaginated(threads[index].id, 0, conf.messagesLimit);
      if r.Err? {
        return Send(ErrorMsg(r.error));
      }
      SetMessages(r.value);
      cmd := NoCmd;
    }

    /** Reads the next step of the active stream into a fresh buffer of
        sixteen bytes; `data` is what the read put into it. */
    method ReadActiveStream() returns (data: string, err: Option<Error>)
      requires activeStream != null
      modifies activeStream
      ensures (data, err) == StepOutcome(old(activeStream.steps), ReadBufferSize)
      ensures activeStream.steps == if old(activeStream.steps) == [] then [] else old(activeStream.steps)[1..]
      ensures activeStream.closed == old(activeStream.closed)
    {
      var buffer := new char[ReadBufferSize];
      var n, e := activeStream.Read(buffer);
      data, err := buffer[..n], e;
    }

    /** Replaces one message, in the list and in the chat panel. */
    method SetMessageAt(i: nat, m: Message)
      requires Valid() && i < |messages|
      modifies this, chat
      ensures Valid() && State() == old(State()).(messages := old(messages)[i := m])
    {
      ChatViewUpdate(messages, i, m);
      messages := messages[i := m];
      chat.SetMessage(i, ChatEntry(m));
    }

    /** What the continuation does with one read, `data` and `e`, of the
        last message `i` of thread `threadId`: an error other than end of
        stream changes nothing; otherwise the bytes are appended, and at end
        of stream the stream is closed and the message persisted. */
    method ApplyRead(i: nat, threadId: string, data: string, e: Option<Error>, env: Env) returns (cmd: Cmd)
      requires Valid() && activeStream != null && i < |messages|
      modifies this, chat, store, activeStream
      ensures Valid() && errorState == old(errorState) && activeStream == old(activeStream)
      ensures activeStream.steps == old(activeStream.steps)
      ensures e.Some? && !Is(e.value, Eof) ==>
                State() == old(State()) && activeStream.closed == old(activeStream.closed)
                && cmd == Send(ErrorMsg(Wrapped("activeLLMStream.Read: ", e.value)))
      ensures e.Some? && Is(e.value, Eof) ==>
                ghost var updated := Continued(old(messages)[i], data, env.now, threadId);
                activeStream.closed
                && State() == old(State()).(messages := old(messages)[i := updated],
                                            created := if old(store.createFault).None? then old(store.created) + [updated] else old(store.created))
                && cmd == (if old(store.createFault).None? then NoCmd
                           else Send(ErrorMsg(Wrapped("store.CreateMessage: ", old(store.createFault).value))))
      ensures e.None? ==>
                activeStream.closed == old(activeStream.closed)
                && State() == old(State()).(messages := old(messages)[i := Continued(old(messages)[i], data, env.now, threadId)])
                && cmd == Send(ForwardChatCompletionStreamMsg)
    {
      var streamDone := false;
      if e.Some? {
        if !Is(e.value, Eof) {
          return Send(ErrorMsg(Wrapped("activeLLMStream.Read: ", e.value)));
        }
        streamDone := true;
        activeStream.Close();
      }
      var updated := Continued(messages[i], data, env.now, threadId);
      SetMessageAt(i, updated);
      if streamDone {
        var e2 := store.CreateMessage(updated);
        if e2.Some? {
          return Send(ErrorMsg(Wrapped("store.CreateMessage: ", e2.value)));
        }
        return NoCmd;
      }
      cmd := Send(ForwardChatCompletionStreamMsg);
    }

    /** `handleForwardChatCompletionStreamMsg`, as `Forwarded` says. */
    method HandleForwardChatCompletionStreamMsg(env: Env) returns (cmd: Cmd)
      requires Valid() && activeStream != null
      modifies this, chat, store, activeStream
      ensures Valid() && activeStream == old(activeStream)
      ensures (State(), cmd, ReaderState()) == Forwarded(old(State()), old(ReaderState()), env, old(store.createFault))
    {
      if activeThreadIndex >= |threads| {
        return Send(ErrorMsg(InvalidActiveThreadIndex));
      }
      var activeThreadId := threads[activeThreadIndex].id;
      if LlmIndexRejected(|messages|) {
        return Send(ErrorMsg(BadLlmMessageIndex));
      }
      var data, e := ReadActiveStream();
      cmd := ApplyRead(|messages| - 1, activeThreadId, data, e, env);
    }

    /** The focused panel's own handling of an event, as `PanelStep`
        says; a new terminal size also resizes the messages panel. */
    method UpdateFocused(msg: Msg) returns (cmd: Cmd)
      requires Valid()
      modifies history, settings, input, chat
      ensures Valid()
      ensures (State(), cmd) == PanelStep(old(State()), msg)
      ensures old(focused) == ComponentMessages && msg.WindowSizeMsg? ==>
                chat.width == msg.width && chat.height == msg.height
      ensures !(old(focused) == ComponentMessages && msg.WindowSizeMsg?) ==>
                chat.width == old(chat.width) && chat.height == old(chat.height)
    {
      cmd := NoCmd;
      match focused {
        case ComponentSettings =>
          cmd := UpdateSettings(msg);
        case ComponentHistory =>
          cmd := UpdateHistory(msg);
        case ComponentMessages =>
          cmd := UpdateMessages(msg);
        case ComponentChatInput =>
          cmd := UpdateChatInput(msg);
        case ComponentNone =>
        case ComponentUnset =>
      }
    }

    /** The settings screen handles the event. */
    method UpdateSettings(msg: Msg) returns (cmd: Cmd)
      requires Valid() && focused == ComponentSettings
      modifies settings
      ensures Valid() && (State(), cmd) == PanelStep(old(State()), msg)
    {
      cmd := settings.Update(msg);
    }

    /** The history handles the event. */
    method UpdateHistory(msg: Msg) returns (cmd: Cmd)
      requires Valid() && focused == ComponentHistory
      modifies history
      ensures Valid() && (State(), cmd) == PanelStep(old(State()), msg)
    {
      cmd := history.Update(msg);
    }

    /** The messages panel handles the event; a new terminal size resizes
        it. */
    method UpdateMessages(msg: Msg) returns (cmd: Cmd)
      requires Valid() && focused == ComponentMessages
      modifies chat
      ensures Valid() && (State(), cmd) == PanelStep(old(State()), msg)
      ensures msg.WindowSizeMsg? ==> chat.width == msg.width && chat.height == msg.height
      ensures !msg.WindowSizeMsg? ==> chat.width == old(chat.width) && chat.height == old(chat.height)
    {
      cmd := chat.Update(msg);
    }

    /** The chat input handles the event. */
    method UpdateChatInput(msg: Msg) returns (cmd: Cmd)
      requires Valid() && focused == ComponentChatInput
      modifies input
      ensures Valid() && (State(), cmd) == PanelStep(old(State()), msg)
    {
      cmd := input.Update(msg);
    }

    /** Escape and the two list events. */
    method HandleListMessage(msg: Msg, env: Env, panelCmd: Cmd) returns (cmd: Cmd, copied: Option<string>)
      requires Valid() && (msg.EscapeMsg? || msg.ListEnterMsg? || msg.ListSelectMsg?)
      modifies this, chat, history, input, store
      ensures Valid()
      ensures Outcome(State(), cmd, copied, ReaderState()) ==
                Handled(old(State()), msg, env, old(Given()), conf.messagesLimit, panelCmd, old(ReaderState()), activeStream)
    {
      ghost var reader := ReaderState();
      cmd, copied := panelCmd, None;
      if msg.EscapeMsg? {
        HandleEscapeMsg();
      } else if msg.ListEnterMsg? {
        cmd, copied := HandleListEnterMsg(msg.index, env);
      } else {
        cmd := HandleListSelectMsg(msg.index);
      }
      assert ReaderState() == reader;
    }

    /** The coordinator's own handling of an event, as `Handled` says. */
    method HandleMessage(msg: Msg, env: Env, panelCmd: Cmd) returns (cmd: Cmd, copied: Option<string>)
      requires Valid()
      requires msg.ChatInputReturnMsg? ==> userConfig.Some?
      requires msg.ForwardChatCompletionStreamMsg? ==> activeStream != null
      modifies this, chat, history, settings, input, store, llm, activeStream
      ensures Valid()
      ensures Outcome(State(), cmd, copied, ReaderState()) ==
                Handled(old(State()), msg, env, old(Given()), conf.messagesLimit, panelCmd, old(ReaderState()), activeStream)
      ensures msg.ChatInputReturnMsg? && cmd == Send(ForwardChatCompletionStreamMsg) ==>
                activeStream != null && fresh(activeStream)
    {
      cmd, copied := panelCmd, None;
      if msg.EscapeMsg? || msg.ListEnterMsg? || msg.ListSelectMsg? {
        cmd, copied := HandleListMessage(msg, env, panelCmd);
        return;
      }
      if msg.ChatInputReturnMsg? || msg.ForwardChatCompletionStreamMsg? {
        cmd := HandleStreamMessage(msg, env, panelCmd);
        return;
      }
      ghost var reader := ReaderState();
      match msg {
        case SettingsSubmitMsg(apiKey, llmModel) =>
          cmd := HandleSettingsSubmitMsg(apiKey, llmModel, env);
          assert ReaderState() == reader;
        case ErrorMsg(e) =>
          errorState := Some(e);
          assert ReaderState() == reader;
        case _ =>
      }
    }

    /** A submission from the chat input and a step of the stream. */
    method HandleStreamMessage(msg: Msg, env: Env, panelCmd: Cmd) returns (cmd: Cmd)
      requires Valid() && (msg.ChatInputReturnMsg? || msg.ForwardChatCompletionStreamMsg?)
      requires msg.ChatInputReturnMsg? ==> userConfig.Some?
      requires msg.ForwardChatCompletionStreamMsg? ==> activeStream != null
      modifies this, chat, history, store, llm, activeStream
      ensures Valid()
      ensures Outcome(State(), cmd, None, ReaderState()) ==
                Handled(old(State()), msg, env, old(Given()), conf.messagesLimit, panelCmd, old(ReaderState()), activeStream)
      ensures msg.ChatInputReturnMsg? && cmd == Send(ForwardChatCompletionStreamMsg) ==>
                activeStream != null && fresh(activeStream)
    {
      if msg.ChatInputReturnMsg? {
        cmd := HandleChatInputReturnMsg(msg.value, env);
      } else {
        cmd := HandleForwardChatCompletionStreamMsg(env);
      }
    }

    /** `Update`: with nothing focused a key goes only to the key handler;
        otherwise the focused panel handles the event first (`PanelStep`)
        and then the coordinator (`Handled`), whose command replaces the
        panel's. Only an error event changes the error state. */
    method Update(msg: Msg, env: Env) returns (cmd: Cmd, copied: Option<string>)
      requires Valid()
      requires msg.ChatInputReturnMsg? ==> userConfig.Some?
      requires msg.ForwardChatCompletionStreamMsg? ==> activeStream != null
      modifies this, chat, history, settings, input, store, llm, activeStream
      ensures Valid()
      ensures old(focused) == ComponentNone && msg.KeyMsg? ==>
                State() == AfterKey(old(State()), KeyString(msg.key)) && cmd == KeyCmd(KeyString(msg.key))
                && copied == None && ReaderState() == old(ReaderState())
      ensures !(old(focused) == ComponentNone && msg.KeyMsg?) ==>
                ghost var (p, panelCmd) := PanelStep(old(State()), msg);
                Outcome(State(), cmd, copied, ReaderState()) ==
                  Handled(p, msg, env, old(Given()), conf.messagesLimit, panelCmd, old(ReaderState()), activeStream)
      ensures !msg.ErrorMsg? ==> errorState == old(errorState)
      ensures copied.Some? ==> msg.ListEnterMsg?
    {
      if focused == ComponentNone && msg.KeyMsg? {
        cmd := HandleKeyMsg(msg.key);
        return cmd, None;
      }
      ghost var before, given, reader := State(), Given(), ReaderState();
      var panelCmd := UpdateFocused(msg);
      assert Given() == given && ReaderState() == reader;
      cmd, copied := HandleMessage(msg, env, panelCmd);
      HandledFrames(PanelStep(before, msg).0, msg, env, given, conf.messagesLimit, panelCmd, reader, activeStream);
    }
  }
}
