# panda: a Dafny model of the chat client's core

panda is a terminal chat client for a language model. The screen has three
panels: the history of threads, the messages of the active thread and a
chat input. A settings screen asks for the API key and the model name on
first start. Threads and messages live in a SQLite store with two full-text
indexes. A reply is streamed from the model and shown as it arrives.

This project models the core of that program and proves properties of it:

- `Ui.Model`, the session coordinator. It is one record holding the
  panels, the working set of threads, the active thread's messages, the
  focus, the selection and the error state. Its event handlers are
  methods that change that record step by step. Index 0 of the working
  set is the unsaved "New" slot. The continuation reads at most 16 bytes
  of the streamed reply per step.
- `Handlers`, the pure decisions inside those handlers: the panel
  adjacency the keys follow, the name of a new thread, the insert behind
  the "New" slot, the continuation's guard, which panel escape blurs, and
  which configuration the settings screen saves.
- `Collaborators`, the conversation store, the model client and the reply
  stream, declared with exactly the operations the handlers call. Their
  answers are fields fixed in advance. Every read and request, and every
  write that succeeds, is logged, so a handler's contract can say what was
  asked, persisted and requested; a refused write leaves the log as it was.
- `Db`, the SQLite store over four in-memory tables: `threads`,
  `messages`, `virtual_thread_names` and `virtual_message_content`. Each
  `*Tx` method runs its statements in order and stops at the first
  refused one. The two list queries are pure functions: filter, sort by
  `created_at` descending (`SqlOrder`), skip `offset`, take `limit`.
- `OpenAI`, the model adapter: the stream `Read`, the API-key guards, the
  conversion of stored messages and the client's construction.
- the panels: `Chat` (word wrapping, the rendered text, the message list),
  `List` (the selection index and the events it emits), `Settings` (the
  two-step key/model form), `ChatInput`, `ThreadItems` and `MessageItems`
  (how threads and messages show as list items).
- `GoStrings`, the parts of Go's `strings` package these rely on, with
  lemmas (split/join round trip, `Fields`, `TrimSpace`).

A Go string is a string of bytes. Here it is a `string` with one character
for each byte. The clock, the random id generator, the configuration file
and the clipboard are parameters: an `Env` value gives the current time,
the next id, the result of saving the configuration and whether the
clipboard opens. The SQLite engine is replaced by the tables; a statement
the database refuses is a `Fault` parameter naming which statement fails
and why.

The coordinator's methods are specified through `Ui.Model.State()`. This
is a snapshot of everything a handler may change, and each handler's
`ensures` gives its new snapshot in terms of the old one. The invariant
`Ui.Model.Valid()` is kept by every handler. It says that the history
lists the working set, that the first entry is the "New" slot, and that
the chat panel shows one entry per message.

## Model

| member | source | states |
|---|---|---|
| Handlers.KeyDirection | internal/ui/handlers.go:21-41 | a key names up exactly when it is "k" or "up", down for "j"/"down", left for "h"/"left" and right for "l"/"right" |
| Handlers.NeighbourIsAdjacent | internal/ui/handlers.go:22-41 | the key handler's switch targets a panel exactly when the fixed adjacency links it (up: input to history; down: messages or history to input; left: messages to history; right: history to messages), and only laid-out panels |
| Handlers.NextSelectionFollowsAdjacency | internal/ui/handlers.go:20-48 | a key moves the selection if and only if it names a direction in which the selected panel has a neighbour; the new selection is then adjacent; the selection is always a laid-out panel or unchanged |
| Handlers.ThreadName | internal/ui/handlers.go:125-129 | a new thread's name is the first min(20, len) bytes of the input followed by "..", of length min(20, len) + 2 |
| Handlers.InsertAt | internal/ui/handlers.go:134 | `slices.Insert` puts `x` at `i`: one more element, the prefix before `i` kept, the suffix moved one place |
| Handlers.InsertBehindSlot | internal/ui/handlers.go:134 | inserting at index 1 keeps the "New" slot at index 0, puts the new thread at 1 and moves every other thread one place down |
| Handlers.EmptyMessagesPassGuardAsWritten | internal/ui/handlers.go:229-231 | the written guard, which rejects only a last index of 0, lets through a list whose last index names no message exactly when the list is empty, and the index it then uses is -1 |
| Handlers.LlmIndexGuardSound | internal/ui/handlers.go:229-233 | the corrected guard passes exactly when the last index names a message with one before it, and rejects everything the written guard rejects |
| Handlers.BlurTarget | internal/ui/handlers.go:167-174 | the escape switch has a blur for each laid-out panel and for nothing else |
| Handlers.EscapeNeverBlursAsWritten | internal/ui/handlers.go:165-174 | as written, the switch reads the focus after it is set to None, so no panel is ever blurred, not even the focused history |
| Handlers.EscapeBlursFocusedPanel | internal/ui/handlers.go:165-174 | the corrected escape blurs the panel that had the focus, exactly when it is a laid-out panel |
| Handlers.WithDefaultModel | internal/config/config.go:66-69 | saving keeps the key and fills in "gpt-4o-mini" only when no model is given |
| Handlers.SavedModelIgnoredAsWritten | internal/ui/handlers.go:101-103 | as written, the submission saves only the key, so the saved model is always the default and a typed "o3-mini" is lost |
| Handlers.SavedConfigKeepsModel | internal/ui/handlers.go:100-111 | the corrected submission saves the key and the typed model, and falls back to the default only for an empty model |
| Ui.ChatEntry | internal/ui/model.go:168-174 | a chat entry has the message's content and time and is a user entry if and only if the role is "user" |
| Ui.ChatView | internal/ui/model.go:167-176 | the chat entries of a message list: one per message, in the same order |
| Ui.NewThread | internal/ui/handlers.go:83-93 | the created thread has the fresh id, the derived name, and the current time as both timestamps |
| Ui.Continued | internal/ui/handlers.go:253-265 | the updated reply is an assistant message of the active thread whose content is the old content plus the bytes read; its time is set to now only when bytes arrived and it had none |
| Ui.WithThreadFor | internal/ui/handlers.go:124-137 | on the "New" slot a thread named after the input is created, inserted at index 1 and made active; otherwise nothing changes; the active index stays inside the working set and the messages and the stream stay |
| Ui.PanelStep | internal/ui/model.go:235-249 | only the focused panel's part of the record can change (the settings form, the history's selection or the chat input's text), and the history's selection stays at least -1 |
| Ui.PanelIgnoresOtherEvents | internal/ui/model.go:235-243 | on an event that is not a key the snapshot is unchanged and the command is the widget's; with no panel focused there is no command. A focused messages panel still takes a new terminal size, which the snapshot does not hold (see `Ui.Model.UpdateMessages`) |
| Ui.SettingsSubmitted | internal/ui/handlers.go:100-113 | (as intended) a settings submission keeps the error state and the active stream |
| Ui.ChatInputReturned | internal/ui/handlers.go:115-163 | a chat submission keeps the error state |
| Ui.Sent | internal/ui/handlers.go:137-162 | persisting and sending the user message keeps the error state |
| Ui.Opened | internal/ui/handlers.go:149-162 | opening the stream keeps the error state |
| Ui.Escaped | internal/ui/handlers.go:165-175 | (as intended) escape keeps the error state and the active stream |
| Ui.ListEntered | internal/ui/handlers.go:177-202 | a list enter keeps the error state and the active stream |
| Ui.ListSelected | internal/ui/handlers.go:204-222 | a list selection keeps the error state and the active stream |
| Ui.Forwarded | internal/ui/handlers.go:224-278 | (as intended) a stream step keeps the error state |
| Ui.HandledFrames | internal/ui/model.go:251-268 | only an error event changes the error state, only a list enter copies to the clipboard, and only a chat submission and a stream step change the stream |
| Ui.Model.constructor | internal/ui/model.go:112-138 | a new coordinator has the "New" slot first, the active index 0, no messages, no stream, no error, nothing focused or selected, the history's selection at 0 and empty panels |
| Ui.Model.New | internal/ui/model.go:82-156 | a zero width or height fails before anything else; a missing configuration shows the settings screen, and any other load error fails; a loaded key goes to the client, and its error fails; the store's error fails; on success the working set is the "New" slot followed by the store's threads in order, with active index 0 and no messages; the store is asked once, for the thread page at offset 0 of `initThreadsLimit` rows, exactly when the size, configuration and key checks pass, and nothing is written |
| Ui.Model.SetThreads | internal/ui/model.go:158-161 | the working set and the history's items change together; nothing else changes |
| Ui.Model.SetMessages | internal/ui/model.go:163-177 | the message list is replaced and the chat panel rebuilt with one entry per message, in order; nothing else changes |
| Ui.Model.SetActiveThreadIndex | internal/ui/model.go:179-182 | the active index and the history's selection change together; nothing else changes |
| Ui.Model.SetSelectedComponent | internal/ui/handlers.go:51-61 | the selection changes only to a laid-out panel; otherwise nothing changes |
| Ui.Model.SetFocusedComponent | internal/ui/handlers.go:63-81 | the focus moves to the given component; focusing the chat input focuses its text area; focusing the history reselects the active thread |
| Ui.Model.Init | internal/ui/model.go:184-196 | with the settings screen shown, focus and selection go to settings; otherwise both go to the chat input and the settings form is blurred |
| Ui.Model.View | internal/ui/model.go:198-204 | an error state shows only "Error: " and the error's text; then the settings screen; then the main screen |
| Ui.Model.HandleKeyMsg | internal/ui/handlers.go:20-49 | with nothing focused, enter focuses the selected panel and asks to report the focus; ctrl+c and ctrl+d quit; any other key can only move the selection along the adjacency and asks to report it |
| Ui.Model.CreateNewThread | internal/ui/handlers.go:83-98 | an id failure is wrapped as "utils.RandomID: " and writes nothing; an upsert failure is passed through; otherwise the new thread is upserted once and returned |
| Ui.Model.HandleSettingsSubmitMsg | internal/ui/handlers.go:100-113 | (as intended) the new record and command are those `SettingsSubmitted` gives: a save failure or a key failure reports its wrapped error and changes nothing; otherwise the configuration saved keeps the typed key and model, the key goes to the client, the settings screen is hidden and the focus set up again as `Init` does |
| Ui.Model.PrepareThread | internal/ui/handlers.go:124-137 | off the "New" slot nothing changes; on it, a created thread is inserted at index 1 and made active, or a thread-creation error is reported with nothing changed |
| Ui.Model.SendUserMessage | internal/ui/handlers.go:137-162 | the new record, command and stream are those `Sent` gives: a failed persist of the user message changes nothing; a failed stream open leaves just the persisted, shown user message and the logged request; success appends exactly the user message and an empty assistant placeholder, makes the client's fresh stream the active one and schedules the continuation |
| Ui.Model.OpenStream | internal/ui/handlers.go:149-162 | the new record, command and stream are those `Opened` gives: the stream is requested with the configured model and the input; on error only the request is logged; on success the placeholder is appended, the fresh stream becomes the active one and the continuation is scheduled |
| Ui.Model.HandleChatInputReturnMsg | internal/ui/handlers.go:115-163 | the new record, command and stream are those `ChatInputReturned` gives: an active index outside the working set reports "invalid active thread index" and changes nothing; on the "New" slot an id or upsert failure reports the wrapped "createNewThread: " error and changes nothing; otherwise the thread is prepared as `WithThreadFor` says and the submission goes on as `Sent` says; a stream it opens is fresh |
| Ui.Model.HandleEscapeMsg | internal/ui/handlers.go:165-175 | (as intended) the new record is the one `Escaped` gives: the focus goes to None and the chat input or the history is blurred when it had the focus; nothing else changes |
| Ui.Model.HandleListEnterMsg | internal/ui/handlers.go:177-202 | the new record, command and copied text are those `ListEntered` gives: in the history, enter on the "New" slot clears the messages and focuses the chat input, and enter on a thread focuses the messages; in the messages panel, with a clipboard, an index out of range reports "invalid message index" and otherwise that message's text is copied; nothing else changes |
| Ui.Model.HandleListSelectMsg | internal/ui/handlers.go:204-222 | the new record and command are those `ListSelected` gives: in the history, the index becomes active even when out of range, which is then reported; otherwise the store is asked for the first `messagesLimit` messages of that thread, which is logged, and they are shown or its error reported; other panels change nothing |
| Ui.Model.ReadActiveStream | internal/ui/handlers.go:237-240 | one read into a fresh 16-byte buffer gives what the stream's next step gives, cut to 16 bytes, and consumes that step |
| Ui.Model.SetMessageAt | internal/ui/handlers.go:266-270 | only message `i` is replaced, in the list and in the chat panel |
| Ui.Model.ApplyRead | internal/ui/handlers.go:240-277 | an error other than end of stream changes nothing and drops the read's bytes; otherwise only the last message changes, to the bytes appended; at end of stream the stream is closed and the message persisted exactly once with no further step; otherwise the next step is scheduled |
| Ui.Model.HandleForwardChatCompletionStreamMsg | internal/ui/handlers.go:224-278 | (as intended) the new record, command and stream are those `Forwarded` gives: an active index outside the working set, and a message list the corrected guard rejects, report their errors with nothing read or changed; otherwise at most 16 bytes are read and applied as `ApplyRead` states; the active stream stays the same object |
| Ui.Model.HandleStreamMessage | internal/ui/model.go:254-265 | for a chat submission and a stream step the outcome is the one `Handled` gives: each goes to its handler, whose command replaces the panel's; a stream a submission opens is fresh |
| Ui.Model.UpdateFocused | internal/ui/model.go:235-243 | the new record and the panel's command are those `PanelStep` gives: the focused panel handles the event by its own step (`Settings.Step`, `List.Step`, `Chat.Step`, `ChatInput.Step`); with no panel focused nothing changes and no command is given; a terminal size resizes the messages panel only when it is focused |
| Ui.Model.UpdateSettings | internal/ui/model.go:236-237 | the settings form handles the event as `PanelStep` says for the settings screen |
| Ui.Model.UpdateHistory | internal/ui/model.go:238-239 | the history handles the event as `PanelStep` says for the history |
| Ui.Model.UpdateMessages | internal/ui/model.go:240-241 | the messages panel handles the event as `PanelStep` says for it; a terminal size resizes it and nothing else does |
| Ui.Model.UpdateChatInput | internal/ui/model.go:242-243 | the chat input handles the event as `PanelStep` says for the chat input |
| Ui.Model.HandleListMessage | internal/ui/model.go:256-261 | for escape and the two list events the outcome (record, command, copied text, stream) is the one `Handled` gives: each goes to its handler; escape keeps the panel's command |
| Ui.Model.HandleMessage | internal/ui/model.go:251-268 | the outcome (record, command, copied text, stream) is the one `Handled` gives for the event after the panel answered it: each coordinator message goes to its handler, whose command replaces the panel's; an error event sets the error state; any other event changes nothing and keeps the panel's command |
| Ui.Model.Update | internal/ui/model.go:233-270 | with nothing focused, a key goes only to the key handler and the stream is untouched; otherwise the outcome is the one `Handled` gives on the record and command the focused panel's `PanelStep` leaves; only an error event changes the error state; only a list enter copies to the clipboard |
| Collaborators.ConversationStore.ListLatestThreadsPaginated | internal/ui/store/store.go:6 | the store logs the query with its offset and limit and answers the thread page its oracle holds; nothing else changes |
| Collaborators.ConversationStore.ListMessagesByThreadIDPaginated | internal/ui/handlers.go:213 | the store logs the query with its thread id, offset and limit and answers the message page its oracle holds; nothing else changes |
| Collaborators.ConversationStore.UpsertThread | internal/ui/handlers.go:94 | the write reports the store's fault; the thread is logged exactly when there is none; no query is logged and nothing else changes |
| Collaborators.ConversationStore.CreateMessage | internal/ui/handlers.go:144 | the write reports the store's fault; the message is logged exactly when there is none; no query is logged and nothing else changes |
| Collaborators.StepOutcome | internal/ui/handlers.go:237-240 | a read from an exhausted stream gives end of stream; otherwise the next step's bytes, as many as fit the buffer, with that step's error |
| Collaborators.ReadCloser.Read | internal/ui/handlers.go:240 | `Read` copies the next step's bytes into the buffer as far as they fit, leaves the rest of the buffer alone, and consumes the step |
| Collaborators.ReadCloser.Close | internal/ui/handlers.go:246 | closing marks the reader closed and keeps its steps |
| Collaborators.Llm.SetAPIKey | internal/ui/llm/llm.go:14 | the key is stored unless the client reports an error |
| Collaborators.Llm.CreateChatCompletionStream | internal/ui/llm/llm.go:13 | every request is logged; the client answers a fresh open reader over its steps, or its error and no reader |
| ChatInput.ChatInputModel.constructor | internal/ui/components/chat_input.go:16-28 | the text area starts empty and unfocused |
| ChatInput.ChatInputModel.Focus | internal/ui/components/chat_input.go:38-40 | focusing keeps the text |
| ChatInput.ChatInputModel.Blur | internal/ui/handlers.go:168-169 | blurring keeps the text |
| ChatInput.ChatInputModel.Update | internal/ui/components/chat_input.go:52-71 | the new text and command are those `ChatInput.Step` gives: typed text goes into a focused text area; ctrl+c and ctrl+d quit; enter empties the text area and submits what it held; anything else changes nothing |
| Chat.WrapText | internal/ui/components/chat.go:110-144 | the loop returns the input's newline-separated lines, each wrapped, joined with newlines |
| Chat.FillWords | internal/ui/components/chat.go:124-140 | the word loop writes the greedy fill of the words |
| Chat.WrapKeepsFittingText | internal/ui/components/chat.go:112-122 | a text whose every line fits the width comes back unchanged |
| Chat.WrapWordsLines | internal/ui/components/chat.go:125-140 | in a greedy fill the counter is the length of the last output line, and each output line fits the width or is a single word |
| Chat.WrapWordsSeparators | internal/ui/components/chat.go:127-139 | a greedy fill writes the words in order, with exactly one space or one newline between neighbours |
| Chat.WrapLineFits | internal/ui/components/chat.go:119-140 | each line cut from an over-long line fits the width, unless it is a single word longer than the width |
| Chat.WrapLineKeepsWords | internal/ui/components/chat.go:124-139 | an over-long line keeps its words as `strings.Fields` splits them, in order, one separator apart |
| Chat.FieldsLackNewline | internal/ui/components/chat.go:124 | no word of a line holds a newline |
| Chat.FormatEntry | internal/ui/components/chat.go:77-95 | the formatting method gives the entry's rendering: header, then the wrapped and indented content |
| Chat.FormatMessageEmpty | internal/ui/components/chat.go:78-80 | an entry renders to nothing if and only if its content is empty |
| Chat.ConcatAppend | internal/ui/components/chat.go:99-104 | writing two lists of parts into the builder gives the two texts one after the other |
| Chat.ViewportContentConcat | internal/ui/components/chat.go:98-106 | the rendered text of two entry lists is the text of the first followed by that of the second |
| Chat.EmptyEntryAddsNewline | internal/ui/components/chat.go:101-104 | an empty placeholder adds only its separating newline to the rendered text |
| Chat.RenderMessages | internal/ui/components/chat.go:99-105 | the loop gives each entry's rendering followed by a newline, in order |
| Chat.ChatModel.constructor | internal/ui/components/chat.go:29-47 | a new chat panel has no entries and the given size |
| Chat.ChatModel.UpdateViewportContent | internal/ui/components/chat.go:98-108 | the text shown is the rendering of the entries, in order |
| Chat.ChatModel.SetMessage | internal/ui/components/chat.go:49-52 | only entry `index` is replaced, and the text re-rendered |
| Chat.ChatModel.AddMessage | internal/ui/components/chat.go:54-58 | one entry is appended at the end, and the text re-rendered |
| Chat.ChatModel.ResetMessages | internal/ui/components/chat.go:60-63 | the entries are emptied, and the text re-rendered |
| Chat.ChatModel.SetSize | internal/ui/components/chat.go:65-71 | the size changes, the entries stay, and the text is re-rendered |
| Chat.ChatModel.Update | internal/ui/components/chat.go:150-171 | the command is the one `Chat.Step` gives: escape asks the coordinator to drop focus, and everything else goes to the viewport; a terminal size resizes the panel as `SetSize` does, keeping its entries; any other event changes nothing |
| List.MoveCursor | internal/ui/components/list.go:93-95 | the inner list's cursor step stays within the items: up stops at the first, down at the last, and from no selection either key selects the first |
| List.ListModel.constructor | internal/ui/components/list.go:40-59 | a new list has its title and items and no selection (-1) |
| List.ListModel.Focus | internal/ui/components/list.go:61-64 | focusing selects index 0 |
| List.ListModel.Blur | internal/ui/components/list.go:66-69 | blurring selects -1 |
| List.ListModel.Select | internal/ui/components/list.go:71-73 | `Select(i)` sets the index to `i` |
| List.ListModel.SetItems | internal/ui/components/list.go:75-77 | the items are replaced; the selection stays |
| List.ListModel.SetItem | internal/ui/components/list.go:79-81 | only item `i` is replaced |
| List.ListModel.Update | internal/ui/components/list.go:93-114 | the new index and command are those `List.Step` gives: the cursor keys move first; then escape emits the escape event, enter emits the current index only when it is at least 0, and a cursor key emits the index it moved to |
| ThreadItems.Title | internal/ui/components/thread_list_item.go:15-17 | a thread's title is its name |
| ThreadItems.Description | internal/ui/components/thread_list_item.go:19-21 | a thread's description is its creation time |
| ThreadItems.FilterValue | internal/ui/components/thread_list_item.go:23-25 | the filter matches the same text as the title |
| ThreadItems.Height | internal/ui/components/thread_list_item.go:32-35 | one line per item |
| ThreadItems.Spacing | internal/ui/components/thread_list_item.go:37-40 | one line between items |
| ThreadItems.NewThreadListItems | internal/ui/components/thread_list_item.go:47-55 | one item per thread, in the same order, each wrapping its thread |
| ThreadItems.ItemsShowThreads | internal/ui/components/thread_list_item.go:15-25 | the history reads back each thread's name and creation time, in order |
| ThreadItems.ItemsOfInsert | internal/ui/components/thread_list_item.go:47-55 | the items of a list with a thread inserted are the old items with that thread's item inserted at the same place |
| MessageItems.Title | internal/ui/components/message_list_item.go:20-22 | a message's title is its content |
| MessageItems.FilterValue | internal/ui/components/message_list_item.go:35-37 | the filter value equals the title |
| MessageItems.DescriptionCases | internal/ui/components/message_list_item.go:24-33 | the description is empty if and only if the role or the time is; otherwise it ends with " at " and the time and begins with "AI" if and only if the role is "assistant", else "You" |
| MessageItems.DelegateSpacing | internal/ui/components/message_list_item.go:74-76 | no spacing between items |
| MessageItems.DelegateHeight | internal/ui/components/message_list_item.go:70-72 | the height is 2 plus the spacing, that is 2 |
| MessageItems.NewMessageListItem | internal/ui/components/message_list_item.go:82-86 | the item wraps the message |
| MessageItems.NewMessageListItems | internal/ui/components/message_list_item.go:88-96 | one item per message, in the same order |
| Settings.SettingsModel.constructor | internal/ui/components/settings.go:34-41 | a new form asks for the key, with nothing pending |
| Settings.SettingsModel.Focus | internal/ui/components/settings.go:43-45 | focusing the input changes nothing else |
| Settings.SettingsModel.Blur | internal/ui/components/settings.go:47-49 | blurring the input changes nothing else |
| Settings.SettingsModel.Update | internal/ui/components/settings.go:55-81 | the new form and command are those `Settings.Step` gives: enter with a blank value changes nothing; in key mode it stores the trimmed key, switches to model mode and clears the input; in model mode it submits the stored key and the trimmed model; escape, ctrl+c and ctrl+d quit; a submission always carries a non-empty key and model |
| Settings.SettingsModel.Enter | internal/ui/components/settings.go:62-75 | the new form and command are those `Settings.EnterStep` gives: the two modes of enter, with the blank value ignored |
| Settings.TwoStepSubmission | internal/ui/components/settings.go:63-73 | typing a key, enter, a model and enter into a fresh form submits exactly the trimmed pair |
| Db.Without | internal/db/db.go:87-95 | a keyed delete keeps exactly the rows whose key differs from the id; one filter serves `threads` by id and both indexes by thread id |
| Db.NameRows | internal/db/db.go:69-70 | the name-index rows for a list of threads: one per thread, in order, holding its id and name |
| Db.CreateKeepsMirror | internal/db/db.go:63-74 | a thread row and then its name row keep the name index a mirror of the threads |
| Db.RenameKeepsMirror | internal/db/db.go:76-84 | renaming in both tables keeps the mirror |
| Db.DeleteKeepsMirror | internal/db/db.go:86-92 | deleting the thread row and then its name row keeps the mirror |
| Db.CreateMessageKeepsMirror | internal/db/db.go:112-123 | storing a message keeps the mirror |
| Db.PartialCreateBreaksMirror | internal/db/db.go:66-72 | a thread row whose name row then fails breaks the mirror, so only the caller's rollback restores it |
| Db.MessagesOf | internal/db/db.go:127 | the rows with the given thread id, and no others, taken from the table |
| Db.LatestThreadsSpec | internal/db/db.go:54-61 | the thread page is exactly the run after the first `offset` rows of the stored threads put in `created_at` descending order, `limit` long when that many remain and all that remain otherwise; so it holds at most `limit` stored threads, descending, and all of them when neither bound cuts |
| Db.ThreadMessagesSpec | internal/db/db.go:125-132 | the message page is exactly the run after the first `offset` rows of the thread's own messages put in `created_at` descending order, `limit` long when that many remain and all that remain otherwise; so it holds only the thread's messages, at most `limit`, descending, and all of them when neither bound cuts |
| Db.ThreadMessagesPage | internal/db/db.go:125-132 | the message page is the run after the first `offset` rows of a descending reordering of the thread's messages, of the length the bounds leave |
| Db.ThreadMessagesRows | internal/db/db.go:125-132 | the message page holds at most `limit` of the thread's stored messages, descending, and all of them when neither bound cuts |
| Db.UnknownThreadIsEmpty | internal/db/db.go:125-132 | the query never checks that the thread exists: an id no message carries gives an empty page, not an error |
| Db.Tx.Exec | internal/db/db.go:66-72 | a statement with positional values runs unless refused; a record as a positional argument is always refused and changes nothing |
| Db.Tx.NamedExec | internal/db/db.go:115-117 | a statement with named parameters runs unless refused |
| Db.Store.Begin | internal/db/db.go:50-52 | a transaction over the current tables, or the database's error |
| Db.Store.ListLatestThreadsPaginated | internal/db/db.go:54-61 | the page of threads, or the error wrapped as "db.Select: " |
| Db.Store.ListMessagesByThreadIDPaginated | internal/db/db.go:125-132 | the page of the thread's messages, or the error wrapped as "could not select messages, db.Select: " |
| Db.Store.CreateThreadTxAsWritten | internal/db/db.go:63-68 | as written, the thread row goes to `tx.Exec` as one record argument, so every call fails and writes nothing |
| Db.Store.CreateThreadTx | internal/db/db.go:63-74 | (as intended) the thread row and then its name row, stopping at the first refused statement with its wrapped error |
| Db.Store.UpdateThreadNameTx | internal/db/db.go:76-84 | the thread's row and then its name row are renamed, stopping at the first refused statement |
| Db.Store.DeleteThreadTx | internal/db/db.go:86-97 | the thread row, its name row and its content-index rows are deleted in that order, stopping at the first refused statement |
| Db.Store.DeleteAllThreadsTx | internal/db/db.go:99-110 | the threads table and both indexes are emptied in that order, stopping at the first refused statement |
| Db.Store.CreateMessageTx | internal/db/db.go:112-123 | the message row and then the owner's `updated_at`, stopping at the first refused statement |
| Db.CreateThreadEffect | internal/db/db.go:63-74 | a created thread adds one row to `threads` and one to the name index, and nothing else |
| Db.RenameEffect | internal/db/db.go:76-84 | a rename changes only the names of the matching rows in `threads` and the name index |
| Db.DeleteThreadEffect | internal/db/db.go:86-97 | a deleted thread leaves no row with its id in `threads` or either index, keeps every other row, and keeps `messages` |
| Db.DeleteAllEffect | internal/db/db.go:99-110 | `threads` and both indexes end up empty; `messages` is kept |
| Db.CreateMessageEffect | internal/db/db.go:112-123 | one message row is added; only the owner's `updated_at` changes; no content-index row is added |
| SqlOrder.TextLeTotal | internal/db/db.go:56 | byte-wise text order is total |
| SqlOrder.TextLeTransitive | internal/db/db.go:56 | byte-wise text order is transitive |
| SqlOrder.TextLeAntisymmetric | internal/db/db.go:56 | byte-wise text order is antisymmetric |
| SqlOrder.SortDescCorrect | internal/db/db.go:56 | `ORDER BY ... DESC` gives the same rows, in descending key order |
| SqlOrder.Page | internal/db/db.go:56 | `LIMIT`/`OFFSET`: at most `limit` rows, the rows after the first `offset` |
| SqlOrder.PageConcat | internal/db/db.go:56 | two adjacent pages together are the page covering both, so no row is skipped or repeated |
| SqlOrder.PageRows | internal/db/db.go:56 | a page holds rows of the input only |
| SqlOrder.PageSorted | internal/db/db.go:56 | a page of sorted rows is sorted |
| SqlOrder.PageAll | internal/db/db.go:56 | a negative limit and no offset give every row |
| SqlOrder.PageRun | internal/db/db.go:56 | a page is the run after the first `offset` rows, `limit` long when that many remain and all that remain otherwise |
| SqlOrder.SortedPage | internal/db/db.go:56 | a page of the sorted rows is such a run of a descending reordering of all the rows |
| OpenAI.CompletionStream.Recv | internal/llm/openai/openai.go:29 | the next server response, then end of stream once they are used up |
| OpenAI.CompletionStream.Close | internal/llm/openai/openai.go:45 | the client's stream is closed and reports its close error; its responses stay |
| OpenAI.OpenAIStream.Read | internal/llm/openai/openai.go:28-42 | a receive error, end of stream included, gives (0, err); a response without choices gives (0, "no completion returned"); otherwise the first min(len(p), len(content)) bytes are copied and counted, with "buffer too small" when they do not all fit; the response is consumed either way |
| OpenAI.ReadOutcomes | internal/llm/openai/openai.go:28-42 | a read copies without error the whole fragment, or fills the buffer and reports that it did not fit, or copies nothing and reports an error |
| OpenAI.OpenAIStream.Close | internal/llm/openai/openai.go:44-46 | closing closes the client's stream and returns the error its `Close` gives |
| OpenAI.OpenAI.constructor | internal/llm/openai/openai.go:54-61 | an empty base URL means the public endpoint; no key yet |
| OpenAI.OpenAI.SetAPIKey | internal/llm/openai/openai.go:63-67 | the key is stored, a client built for it, and no error reported |
| OpenAI.OpenAI.DbMessagesToClientMessage | internal/llm/openai/openai.go:69-79 | one request message per stored message, with the same length, order, role and content |
| OpenAI.OpenAI.CreateChatCompletion | internal/llm/openai/openai.go:82-100 | without a key, "API key not set" and no request; otherwise one non-streaming request for the model is sent holding each stored message's role and content, in order, and the answer is choice 0's content, "no completion returned" when there is no choice, or the client's error |
| OpenAI.OpenAI.CreateChatCompletionStream | internal/llm/openai/openai.go:103-117 | without a key, "API key not set" and no request; otherwise one streaming request for the model is sent holding each stored message's role and content, in order, and the answer is a reader over the stream or the client's error |
| GoStrings.TrimSpaceEmpty | internal/ui/components/settings.go:63-64 | a trimmed value is empty if and only if the value is all white space; otherwise it starts and ends with a non-space |
| GoStrings.JoinSplit | internal/ui/components/chat.go:112-117 | joining the parts of a split with the separator gives back the text |
| GoStrings.SplitPartsLackSep | internal/ui/components/chat.go:112 | no part of a split holds the separator |
| GoStrings.SplitAppendSep | internal/ui/components/chat.go:112 | splitting text, the separator and more text gives the parts of each side |
| GoStrings.FieldsAreWords | internal/ui/components/chat.go:124 | every field is non-empty and holds no white space |
| GoStrings.ReplaceConcat | internal/ui/components/chat.go:93 | replacing a character distributes over concatenation |

## Left out

- Layout and styles: the float panel ratios, the border colours and the main `View` composition. `View` is modelled down to which screen it shows.
- Widget internals: the viewport's scrolling, the text area's line editing (enter in the text area itself), the list's paging and filtering, and `GoToLastPage`. The list's cursor step is stated by `MoveCursor`.
- The item delegates' `Render` and `Update`, the thread item's `Render`/`Update` and the message delegate's word wrapping; they only draw.
- `Chat.Header` stands for the styled header. The styles are opaque, so the header is the sender and the time.
- The full-text searches (`SearchThreadNamesPaginated`, `SearchMessageContentPaginated`) depend on SQLite's tokenizer and ranking.
- SQLite setup, schema and migrations. `Commit` and `Rollback` belong to the callers of `Begin`. The order of rows with equal `created_at` is table order; SQLite leaves it open.
- Db.Store.ListLatestThreadsPaginated: on a select error it returns no rows. The code returns whatever rows were scanned before the error.
- The network client, the clipboard write, the configuration file's I/O, the random ids and the clock are parameters.
- Commands run asynchronously in the program; here a command is the value a handler returns. Batching two commands is modelled by the coordinator's part of the batch.
- The `ListDeleteMsg` case of `Update` calls a handler that does not exist in the code; the model ignores that event.
- Ui.Model.New: on an error it returns no model. The code returns the partly built model, which its caller does not use.
- Collaborators.ConversationStore: the two list queries log their arguments but answer their oracle whatever the arguments. The store they stand for is `Db`; they are not tied to it.
- Ui.Model.Valid does not include the chat panel's `Valid` (its rendered text). Every handler keeps the entries; the rendered text is proved separately by the `Chat` methods.
- Ui.Model.Update: it requires a loaded configuration for a chat submission and an open stream for a continuation. In the code both would be nil dereferences.
- The code is mid-refactor and does not compile as shown. The model fixes one consistent interface:
  - The store interface lacks the three methods the handlers call.
  - The handlers pass a string where the client takes messages.
  - The stream continuation calls `SetItem` on the chat panel, which has only `SetMessage`.
  - `ComponentSettings` is missing from the component enum, and `ChatInputReturnMsg` is missing from the chat input.
  - The chat input has no `Blur`, and the chat panel has no `Focus` or `Blur`.
  - `NewListModel` is called with a record argument it does not take.
- The component enum adds `ComponentSettings` and `ComponentUnset`. `ComponentUnset` is Go's zero value, which stands before `Init`.

- Members that follow the corrected behaviour of a finding below, each beside the member that models the code as written:
  - Ui.Model.HandleSettingsSubmitMsg and Ui.SettingsSubmitted save `SavedConfig`; as written: Handlers.SavedModelIgnoredAsWritten.
  - Ui.Model.HandleEscapeMsg and Ui.Escaped blur the focused panel; as written: Handlers.EscapeNeverBlursAsWritten.
  - Ui.Model.HandleForwardChatCompletionStreamMsg and Ui.Forwarded use the corrected guard; as written: Handlers.EmptyMessagesPassGuardAsWritten.
  - Db.Store.CreateThreadTx uses `NamedExec`; as written: Db.Store.CreateThreadTxAsWritten.
- Chat.WrapText: `strings.Split` and `strings.Fields` are modelled on bytes, so the multi-byte UTF-8 encodings of Unicode white space (U+0085, U+00A0, U+2000 to U+200A and others) are not separators here.
- Settings.SettingsModel.Update: `strings.TrimSpace` is modelled on bytes, so a value of multi-byte Unicode white space is not blank here.
- Settings.SettingsModel.Enter: for the same reason, multi-byte Unicode white space is not trimmed.
- GoStrings.TrimSpaceEmpty and GoStrings.FieldsAreWords: white space means the six single-byte characters only.

### Where the documented design and the code differ (the model follows the code, except where a finding's corrected version is used, as listed above)

- Recent threads are ordered by `created_at`, not `updated_at`.
- Messages are listed newest first, not oldest first.
- `CreateMessageTx` adds no row to the message-content index.
- `DeleteThreadTx` keeps the thread's rows in `messages`.
- The stream `Read` drops the rest of an over-long fragment. The continuation then aborts on "buffer too small".

## Findings

| source | as written | input that shows it | evidently intended | confidence | as-written member | corrected member |
|---|---|---|---|---|---|---|
| internal/ui/handlers.go:229-231 | the continuation's guard rejects only `len(messages) - 1 == 0` | an empty message list: the index is -1 and passes the guard, so `m.messages[-1]` panics | reject any index below 1 ("should be at least 1") | not executed | Handlers.EmptyMessagesPassGuardAsWritten | Handlers.LlmIndexGuardSound |
| internal/ui/handlers.go:165-174 | the focus is set to None before the switch on it, so the switch never matches | escape with the history focused: the history is not blurred and keeps its selection | blur the panel that had the focus | not executed | Handlers.EscapeNeverBlursAsWritten | Handlers.EscapeBlursFocusedPanel |
| internal/ui/handlers.go:101-103 | the settings submission saves only the key; the typed model is dropped | key "key" and model "o3-mini": "gpt-4o-mini" is saved | save the model typed, with the default only when none is given | not executed | Handlers.SavedModelIgnoredAsWritten | Handlers.SavedConfigKeepsModel |
| internal/db/db.go:63-68 | the thread row's named-parameter INSERT goes to `tx.Exec` with the record as its one argument | any thread: `database/sql` cannot take a record as a positional value, so the INSERT fails ("tx.NamedExec" in the message names the call meant) | `tx.NamedExec`, so the record fills the named parameters, as `CreateMessageTx` does | not executed | Db.Store.CreateThreadTxAsWritten | Db.Store.CreateThreadTx |
