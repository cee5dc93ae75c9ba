/** The pure decisions inside the coordinator's handlers: the panel
    adjacency the arrow keys follow, the name of a thread created from a
    first message, the insertion into the working set, the guard of the
    stream continuation, the panel escape blurs and the configuration the
    settings screen saves. Where a handler as written differs from what it
    evidently intends, both versions are here, each with its property. */
module Handlers {
  import opened Common
  import opened Records
  import opened Components

  const NewThreadName := "New"
  const RoleUser := "user"
  const RoleAssistant := "assistant"
  const RoleSystem := "system"
  /** The model the configuration falls back to. */
  const DefaultModel := "gpt-4o-mini"
  /** How many bytes of the first message name a new thread. */
  const NameLength := 20
  /** The size of the buffer each continuation reads into. */
  const ReadBufferSize := 16

  /** Index 0 of the working set: the unsaved "New" slot, whose description
      line invites to start a thread. */
  const NewThreadSlot := Thread("", NewThreadName, "Create a new thread..", "", false)

  // ---------------------------------------------------------------------
  // Key navigation

  datatype Direction = Up | Down | Left | Right

  /** The direction a key names: the arrows and the vi keys. */
  function KeyDirection(key: string): (d: Option<Direction>)
    ensures d == Some(Up) <==> key == "k" || key == "up"
    ensures d == Some(Down) <==> key == "j" || key == "down"
    ensures d == Some(Left) <==> key == "h" || key == "left"
    ensures d == Some(Right) <==> key == "l" || key == "right"
  {
    if key == "k" || key == "up" then Some(Up)
    else if key == "j" || key == "down" then Some(Down)
    else if key == "h" || key == "left" then Some(Left)
    else if key == "l" || key == "right" then Some(Right)
    else None
  }

  /** The layout's adjacency: the chat input sits below both panels, the
      history left of the messages. */
  predicate Adjacent(d: Direction, from: Component, to: Component)
  {
    (d == Up && from == ComponentChatInput && to == ComponentHistory)
    || (d == Down && (from == ComponentMessages || from == ComponentHistory) && to == ComponentChatInput)
    || (d == Left && from == ComponentMessages && to == ComponentHistory)
    || (d == Right && from == ComponentHistory && to == ComponentMessages)
  }

  /** The panel the key handler moves the selection to, if any. */
  function Neighbour(d: Direction, from: Component): Option<Component>
  {
    match d
    case Up => if from == ComponentChatInput then Some(ComponentHistory) else None
    case Down => if from == ComponentMessages || from == ComponentHistory then Some(ComponentChatInput) else None
    case Left => if from == ComponentMessages then Some(ComponentHistory) else None
    case Right => if from == ComponentHistory then Some(ComponentMessages) else None
  }

  /** The handler's switch follows the adjacency exactly, and only ever
      targets a laid-out panel. */
  lemma NeighbourIsAdjacent(d: Direction, from: Component, to: Component)
    ensures Neighbour(d, from) == Some(to) <==> Adjacent(d, from, to)
    ensures Neighbour(d, from).Some? ==> Neighbour(d, from).value in Layout
  {
  }

  /** The selection after a key press with `selected` selected. */
  function NextSelection(selected: Component, key: string): Component
  {
    match KeyDirection(key)
    case None => selected
    case Some(d) => match Neighbour(d, selected) case None => selected case Some(c) => c
  }

  /** A key moves the selection exactly when it names a direction along
      which the selected panel has a neighbour, and then to that neighbour. */
  lemma NextSelectionFollowsAdjacency(selected: Component, key: string)
    ensures NextSelection(selected, key) != selected <==>
              exists d :: KeyDirection(key) == Some(d) && Neighbour(d, selected).Some?
    ensures NextSelection(selected, key) != selected ==>
              Adjacent(KeyDirection(key).value, selected, NextSelection(selected, key))
    ensures NextSelection(selected, key) in Layout + {selected}
  {
    match KeyDirection(key)
    case None =>
    case Some(d) =>
      NeighbourIsAdjacent(d, selected, NextSelection(selected, key));
      if Neighbour(d, selected).Some? {
        assert Neighbour(d, selected).value != selected;
      }
  }

  // ---------------------------------------------------------------------
  // Creating a thread from a first message

  /** The first (at most twenty) bytes of the input followed by "..". */
  function ThreadName(value: string): (name: string)
    ensures |name| == Min(NameLength, |value|) + 2
    ensures name[..|name| - 2] == value[..Min(NameLength, |value|)]
    ensures name[|name| - 2..] == ".."
  {
    value[..Min(NameLength, |value|)] + ".."
  }

  /** `slices.Insert(s, i, x)`. */
  function InsertAt<T>(s: seq<T>, i: nat, x: T): (r: seq<T>)
    requires i <= |s|
    ensures |r| == |s| + 1 && r[i] == x
    ensures r[..i] == s[..i] && r[i + 1..] == s[i..]
  {
    s[..i] + [x] + s[i..]
  }

  /** Inserting a new thread behind the "New" slot keeps that slot first
      and every earlier thread, one place further down. */
  lemma InsertBehindSlot(threads: seq<Thread>, t: Thread)
    requires |threads| >= 1
    ensures var r := InsertAt(threads, 1, t);
            r[0] == threads[0] && r[1] == t
            && forall k :: 1 <= k < |threads| ==> r[k + 1] == threads[k]
  {
    var r := InsertAt(threads, 1, t);
    forall k | 1 <= k < |threads|
      ensures r[k + 1] == threads[k]
    {
      assert r[k + 1] == r[2..][k - 1];
    }
  }

  // ---------------------------------------------------------------------
  // The stream continuation's guard

  /** As written: the continuation refuses to run only when the last
      message's index, one less than the count, is 0. */
  predicate LlmIndexRejectedAsWritten(count: nat)
  {
    count - 1 == 0
  }

  /** The guard as written lets the continuation through with a last
      index that names no message of the list exactly when the list is
      empty; that index is then -1. */
  lemma EmptyMessagesPassGuardAsWritten(messages: seq<Message>)
    ensures (!LlmIndexRejectedAsWritten(|messages|) && !(0 <= |messages| - 1 < |messages|)) <==> messages == []
    ensures messages == [] ==> |messages| - 1 == -1
  {
  }

  /** Intended ("should be at least 1"): the continuation runs only when
      the last message has at least one message before it. */
  predicate LlmIndexRejected(count: nat)
  {
    count - 1 < 1
  }

  /** Past the intended guard the last index is a real message with a
      message before it, and the guard refuses no more than that. */
  lemma LlmIndexGuardSound(count: nat)
    ensures !LlmIndexRejected(count) <==> 1 <= count - 1 < count
    ensures LlmIndexRejectedAsWritten(count) ==> LlmIndexRejected(count)
  {
  }

  // ---------------------------------------------------------------------
  // Escape

  /** The panel the escape handler's switch blurs, given the value it
      switches on: the laid-out panels have a blur, nothing else does. */
  function BlurTarget(c: Component): (r: Option<Component>)
    ensures r.Some? <==> c in Layout
    ensures r.Some? ==> r.value == c
  {
    if c in Layout then Some(c) else None
  }

  /** As written: the handler sets the focus to None before switching on
      it, so the switch sees None whatever was focused. */
  function EscapeBlursAsWritten(focused: Component): Option<Component>
  {
    var focusedNow := ComponentNone;
    BlurTarget(focusedNow)
  }

  /** As written, escape never blurs any panel, even a focused one. */
  lemma EscapeNeverBlursAsWritten(focused: Component)
    ensures EscapeBlursAsWritten(focused) == None
    ensures focused == ComponentHistory ==> EscapeBlursAsWritten(focused) != Some(focused)
  {
  }

  /** Intended: escape blurs the panel that was focused. */
  function EscapeBlurs(focused: Component): Option<Component>
  {
    BlurTarget(focused)
  }

  lemma EscapeBlursFocusedPanel(focused: Component)
    ensures EscapeBlurs(focused).Some? <==> focused in Layout
    ensures EscapeBlurs(focused).Some? ==> EscapeBlurs(focused).value == focused
  {
  }

  // ---------------------------------------------------------------------
  // The saved configuration

  datatype UserConfig = UserConfig(llmApiKey: string, llmModel: string)

  /** `config.Save` fills in the default model when none is given. */
  function WithDefaultModel(c: UserConfig): (r: UserConfig)
    ensures r.llmApiKey == c.llmApiKey
    ensures r.llmModel == if c.llmModel == "" then DefaultModel else c.llmModel
  {
    if c.llmModel == "" then c.(llmModel := DefaultModel) else c
  }

  /** As written: the settings submission saves only the key. */
  function SavedConfigAsWritten(apiKey: string, llmModel: string): UserConfig
  {
    WithDefaultModel(UserConfig(apiKey, ""))
  }

  /** As written, the model the user typed is never saved: the saved model
      is always the default. */
  lemma SavedModelIgnoredAsWritten(apiKey: string, llmModel: string)
    ensures SavedConfigAsWritten(apiKey, llmModel).llmModel == DefaultModel
    ensures SavedConfigAsWritten("key", "o3-mini").llmModel != "o3-mini"
  {
  }

  /** Intended: the submission saves the key and the model typed. */
  function SavedConfig(apiKey: string, llmModel: string): UserConfig
  {
    WithDefaultModel(UserConfig(apiKey, llmModel))
  }

  lemma SavedConfigKeepsModel(apiKey: string, llmModel: string)
    ensures SavedConfig(apiKey, llmModel).llmApiKey == apiKey
    ensures llmModel != "" ==> SavedConfig(apiKey, llmModel).llmModel == llmModel
    ensures llmModel == "" ==> SavedConfig(apiKey, llmModel).llmModel == DefaultModel
  {
  }
}
