# llm-tui session model

llm-tui is a terminal chat front end for the `llm` command-line tool. The
user browses conversations loaded from `llm logs list --json`, picks a
model from `llm aliases`, types prompts and reads the answers. Each prompt
is answered by a worker thread that runs `llm`. A small TCP server also
accepts one-line prompts from other programs.

This project models the `App` session state of `src/main.rs` and the
steps that mutate it:

- the `App` methods, as the class `Session.App`;
- one pass of the main loop before drawing (`Tick`: expire the feedback,
  take one answer, take one remote line);
- the key dispatch (`HandleKey`);
- the parser of `llm aliases` output (`Aliases`);
- the grouping of the log entries into conversations (`History`);
- the composition of a worker's answer (`Inference`).

The `App` methods that touch several fields (`SendMessage`,
`CheckForResponse`, `HandleRemoteCommand`, `ToggleConversationList`, the
dispatch methods and `Tick`) are proved against a function of module
`SessionState`. That function says what the method does to the whole
state, seen as a `Snapshot` value. The list and focus methods are proved
against `Navigation.NextIndex`, `Navigation.PreviousIndex` and
`Navigation.FocusAfter`. The remaining methods state their new fields
directly: `ExitEditMode`, `ScrollToBottom`, `StartNewConversation`,
`SetFeedback`, `UpdateFeedback`, `DeliverAnswer` and `ReceiveRemoteLine`.
The lemmas beside those functions state what the
operations promise across several calls: the per-tick composition, the
session invariant `Consistent`, and where the answers and remote lines
land.

Channels become queues, oldest first. Spawning a worker becomes appending
a `Request` to `outbox`. A worker finishing becomes `App.DeliverAnswer`.
A TCP client's line becomes `App.ReceiveRemoteLine`.

The modelled methods and loop steps panic in four ways: a `usize` underflow in `len() - 1`,
indexing `conversations` past its end, indexing `models` past its end,
and the two together in `send_message`. `Tick` and `HandleKey` return
`Panicked` exactly when the source would panic in that step, and then
change nothing. The individual methods require that they do not panic.
Integer overflow is taken to panic as in a debug build. Drawing, which is
not modelled, can panic as well (see "Left out").

Time is an integer number of milliseconds supplied by the caller. The
feedback lifetime is 5000.

Behaviour of the code worth knowing:

- An answer is appended to the conversation that is current when it
  ARRIVES, not to the one it was asked in
  (`Scenarios.AnswerGoesWhereTheUserIs`).
- Messages of a conversation keep the order of the log array; nothing
  sorts them by time.
- Editing mode has no cursor. Characters are appended at the end and
  Backspace removes the last one.
- Hiding the conversation list moves the focus on only when the list
  itself has it. A focus on the model panel, which is hidden too, stays
  there.
- `i` enters Editing from every panel, moving the focus to the input.

## Model

| member | source | states |
|---|---|---|
| Entities.WithMessage | src/main.rs:240-243 | pushing a message keeps id and name, adds exactly one message at the end and leaves the earlier ones unchanged |
| Text.TrimStart | src/main.rs:398-399 | the result is a suffix; everything removed is Unicode white space; it starts with a non-space or is empty |
| Text.TrimEnd | src/main.rs:398-399 | the result is a prefix; everything removed is white space; it ends with a non-space or is empty |
| Text.Trim | src/main.rs:924 | the result has no white space at either end, equals the input when the input is already unpadded, and holds only characters of the input |
| Text.TrimKeepsMiddle | src/main.rs:924 | the result is the stretch of the input between a whitespace prefix and a whitespace suffix, so only white space at the two ends is removed |
| Text.IndexOf | src/main.rs:396 | the position of the first occurrence of a character: it holds that character and none comes before it |
| Text.OccurrencesAppend | src/main.rs:396 | the separator count of a concatenation is the sum of the counts |
| Text.NoOccurrences | src/main.rs:396 | the separator count is zero exactly when the separator does not occur |
| Text.SplitAtOnlySeparator | src/main.rs:396 | a line with exactly one separator splits into the text before it and the text after it |
| Text.TrimLeadingBlank | src/main.rs:398-399 | the blank after `:` in an alias line is removed by the trim |
| Text.Split | src/main.rs:396 | splitting yields one more part than there are separators, and no part holds a separator |
| Text.JoinSplit | src/main.rs:396 | joining the parts with the separator gives the line back |
| Text.SplitWithoutSeparator | src/main.rs:396 | a line without `:` splits into itself alone |
| Text.SplitAroundSeparator | src/main.rs:396 | `a:b` with no `:` in a or b splits into exactly [a, b] |
| Text.DecimalString | src/main.rs:284 | `usize::to_string` is non-empty, all digits, without a leading zero |
| Text.DecimalRoundTrip | src/main.rs:284 | the decimal string reads back as the number |
| Text.DecimalStringInjective | src/main.rs:284 | different numbers give different strings |
| Aliases.ParseAliasLine | src/main.rs:394-404 | a line is kept exactly when it holds exactly one `:`; the kept alias and full name are trimmed and hold no `:` |
| Aliases.ParseAliasLineAtColon | src/main.rs:394-404 | for every line: with exactly one `:` the model is the trimmed text before it and the trimmed text after it; otherwise the line is dropped |
| Aliases.LoadModels | src/main.rs:386-406 | never more models than lines, and every model is trimmed and free of `:` |
| Aliases.LoadModelsOneLine | src/main.rs:393-405 | a single line yields its parse when it holds one `:` and nothing otherwise; with LoadModelsAppend this fixes the model list of any output |
| Aliases.LoadModelsAppend | src/main.rs:393-405 | the parse works line by line: lines a then b give a's models then b's, so line order is kept |
| Aliases.ParseAliasLineRoundTrip | src/main.rs:394-404 | a model printed as `alias: full name` parses back to itself |
| Aliases.LoadModelsRoundTrip | src/main.rs:393-405 | printing any list of such models one per line and parsing gives the list back |
| History.Reverse | src/main.rs:820 | the reverse has the same length and element i is the input's element n-1-i |
| History.Transcript | src/main.rs:829-869 | every log entry contributes exactly two messages |
| History.RunsAreMaximalRuns | src/main.rs:819-876 | the grouping cuts the entries into consecutive blocks of one id each, named after the block's last entry, with the blocks' exchanges as messages, and neighbouring blocks have different ids |
| History.MaximalRunsAreRuns | src/main.rs:819-876 | any such cut with different neighbouring ids is the grouping, so equal ids that are not adjacent stay separate |
| History.RunsKeepTranscript | src/main.rs:819-876 | read conversation by conversation, the messages are the entries' prompts and responses in array order: none dropped, duplicated or reordered |
| History.RunsAlternate | src/main.rs:819-876 | every conversation is non-empty and of even length, alternating user and assistant |
| History.LoadConversations | src/main.rs:808-876 | the loop from the last entry to the first yields the grouping in reverse order, and a payload that is not an array yields no conversations |
| Inference.ComposeAnswer | src/main.rs:909-915 | the answer starts with stdout; it is exactly stdout when the process succeeded, and otherwise continues with `\nError: ` and stderr |
| Navigation.NextIndex | src/main.rs:178-191 | None goes to 0; i goes to i+1, and the last index to 0; the result stays in range on a non-empty list |
| Navigation.PreviousIndex | src/main.rs:193-206 | None goes to 0; i goes to i-1, and 0 to the last index; the result stays in range |
| Navigation.PreviousUndoesNext | src/main.rs:178-206 | previous after next is the identity on an in-range selection |
| Navigation.NextTimes | src/main.rs:178-191 | k presses of next from an in-range index stay in range |
| Navigation.PreviousTimes | src/main.rs:193-206 | k presses of previous from an in-range index stay in range |
| Navigation.NextTimesSplit | src/main.rs:178-191 | a+b presses of next are a presses followed by b presses |
| Navigation.PreviousTimesSplit | src/main.rs:193-206 | a+b presses of previous are a presses followed by b presses |
| Navigation.NextTimesCountsUp | src/main.rs:178-191 | k presses of next from i, with i+k in range, land on i+k |
| Navigation.PreviousTimesCountsDown | src/main.rs:193-206 | k presses of previous from i, with k <= i, land on i-k |
| Navigation.NavigationPeriod | src/main.rs:178-206 | n presses of next, or of previous, on a list of n items return to the start |
| Navigation.FocusAfter | src/main.rs:150-176 | with the list shown, focus moves one step round the cycle of four panels; with it hidden, it lands on Chat or Input and never stays put |
| Navigation.FocusPeriod | src/main.rs:150-176 | four advances with the list shown, or two from Chat or Input with it hidden, return to the start |
| Keys.KeyAction | src/main.rs:441-531 | Tab always advances the focus; `q`, `h` and `i` quit, toggle and start editing exactly outside Editing; in Editing every character is typed; each panel's actions arise only in that panel |
| Keys.ArrowsAreVimKeys | src/main.rs:446-447 | outside Editing the arrows do what `j` and `k` do |
| SessionState.PanicsWithBothListsFilled | src/main.rs:308-340 | once both lists are non-empty and the invariant holds, no tick panics, and a key panics exactly when it is a message move in an empty conversation with a stale message selection |
| SessionState.Expire | src/main.rs:377-383 | the feedback survives exactly while now is not past its expiry, and is then unchanged |
| SessionState.ExpiryIsMonotone | src/main.rs:377-383 | expiring at an earlier time too does not change what a later expiry leaves |
| SessionState.FreshIdsDiffer | src/main.rs:283-294 | conversations created at different list lengths get different ids |
| SessionState.SendQueuesPrompt | src/main.rs:236-257 | sending appends exactly one user message with the typed text to the current conversation only, clears the input, and dispatches exactly one request with that text and the selected model's alias |
| SessionState.AnswerLandsInCurrent | src/main.rs:260-281 | an answer becomes the last message of the conversation current at arrival, that message is selected, the others are untouched and one answer is consumed |
| SessionState.AnswerWithoutCurrentIsDropped | src/main.rs:260-272 | with no current conversation the answer is consumed and lost, and the state does not go back to Normal |
| SessionState.RemoteLineEffects | src/main.rs:358-367 | a remote line is always acknowledged; with a current conversation it is sent like typed text, otherwise it stays in the input and nothing is sent |
| SessionState.TickComposes | src/main.rs:432-439 | expiry, then one answer, then one remote line, have the net effect `Ticked`: both messages appended in that order to the conversation current at the time |
| SessionState.CopySelectedMessage | src/main.rs:342-356 | the copied text is the selected message of the current conversation exactly when one is selected and in range and the clipboard works; otherwise the error is the clipboard's when a message is selected and in range, and "No message selected" when not |
| SessionState.ToggleFocus | src/main.rs:296-303 | toggling flips the flag; the focus changes only when the list itself is hidden while focused (to Chat); a focus on the model panel stays |
| SessionState.DispatchKeepsConsistent | src/main.rs:441-531 | every key that does not panic keeps the session invariant |
| SessionState.TickKeepsConsistent | src/main.rs:432-439 | every tick that does not panic keeps the session invariant |
| SessionState.DeleteUndoesInsert | src/main.rs:516-521 | typing a character and then Backspace restores the input |
| Session.App.constructor | src/main.rs:115-142 | the session starts with the loaded conversations and models, nothing selected, an empty input, Normal mode and the focus on the conversation list |
| Session.App.ExitEditMode | src/main.rs:144-148 | the mode is Normal afterwards and nothing else changes |
| Session.App.NextFocus | src/main.rs:150-176 | the mode is Normal and the focus is the next one of the visible cycle |
| Session.App.ToggleConversationList | src/main.rs:296-303 | the new state is `Toggled` of the old |
| Session.App.NextConversation | src/main.rs:178-191 | both conversation selections move to the next index together |
| Session.App.PreviousConversation | src/main.rs:193-206 | both conversation selections move to the previous index together |
| Session.App.NextModel | src/main.rs:208-220 | only the model selection moves, to the next index |
| Session.App.PreviousModel | src/main.rs:222-234 | only the model selection moves, to the previous index |
| Session.App.NextMessage | src/main.rs:308-323 | the message selection moves within the current conversation, and does not move without one |
| Session.App.PreviousMessage | src/main.rs:325-340 | the message selection moves back within the current conversation, and does not move without one |
| Session.App.SendMessage | src/main.rs:236-257 | the new state is `Sent` of the old |
| Session.App.ScrollToBottom | src/main.rs:274-281 | the last message of the current conversation is selected, or nothing changes when there is none |
| Session.App.CheckForResponse | src/main.rs:260-272 | the new state is `Answered` of the old |
| Session.App.StartNewConversation | src/main.rs:283-294 | exactly one conversation is appended, with id the decimal old length, the prefixed name and no messages, and both selections point at it |
| Session.App.SetFeedback | src/main.rs:369-375 | the feedback is replaced by one expiring 5000 ms from now |
| Session.App.UpdateFeedback | src/main.rs:377-383 | the feedback is `Expire`d and nothing else changes |
| Session.App.HandleRemoteCommand | src/main.rs:358-367 | the new state is `Commanded` of the old |
| Session.App.Tick | src/main.rs:432-439 | the pass panics exactly when the source does; otherwise the new state is `Ticked` of the old and the invariant holds |
| Session.App.Navigate | src/main.rs:444-492 | the list keys have the effect `Dispatched` gives them |
| Session.App.Edit | src/main.rs:511-524 | the Editing keys have the effect `Dispatched` gives them |
| Session.App.SwitchPanel | src/main.rs:441-531 | the panel keys have the effect `Dispatched` gives them |
| Session.App.Perform | src/main.rs:441-531 | every non-panicking action has the effect `Dispatched` gives it |
| Session.App.HandleKey | src/main.rs:441-531 | a key quits exactly when it is `q` outside Editing, panics exactly when the source does, and otherwise has the `Dispatched` effect and keeps the invariant |
| Session.App.DeliverAnswer | src/main.rs:253-256 | the finished request leaves the outbox and exactly one answer, composed as `run_llm` does, joins the answer queue |
| Session.App.ReceiveRemoteLine | src/main.rs:918-929 | the trimmed line joins the remote queue |
| Scenarios.SameIdLoadsAsOneConversation | src/main.rs:819-876 | two entries with one id load as one conversation of four messages in array order, named after the later entry |
| Scenarios.EmptyHistoryRemoteLinePanics | src/main.rs:178-191 | with no history, `j` in the list selects index 0 of the empty list, and the next remote line makes the tick panic |
| Scenarios.NewConversationKeepsMessageSelection | src/main.rs:283-294 | `n` in the conversation list makes an empty conversation current and leaves the message selection as it was |
| Scenarios.AnswerGoesWhereTheUserIs | src/main.rs:260-272 | a prompt sent in conversation 0, followed by `Tab` and `j`, gets its answer appended to conversation 1 |

## Left out

- Drawing (src/main.rs:548-806) is not modelled. It lays out the screen through ratatui and textwrap. It also indexes `conversations` at the current index (line 726), so a current index past the end panics at the next draw as well. It slices the message list from `selected - height/2` up to at most its length (lines 752-759). No `App` method resets the message selection when the current conversation changes (lines 178-206, 283-294), so the slice can start past its end: select message 15 with a 20-row chat view, press `n`, and the next draw slices 5..0 and panics, in release builds too (`Scenarios.NewConversationKeepsMessageSelection` shows the state that leads there). It then clamps the message selection to `len - 1` (lines 769-773), which underflows on an empty conversation with a selection. That clamp is the one state change drawing makes, and it is not modelled.
- Terminal set-up and tear-down, event polling and the 100 ms timeout: I/O. Keys arrive as `HandleKey` calls.
- The TCP listener and the reply `handle_client` writes back: socket I/O. Only the trimmed line joining the queue is modelled.
- Threads, `Arc<Mutex<App>>` and the channels: concurrency. The channels become queues. A worker becomes an outbox entry, removed when `DeliverAnswer` is called for it.
- The `server_running` flag and `remote_message_received`: the first is only read by drawing, the second is never read.
- Spawning `llm` and reading its pipes, in `run_llm`, `load_models` and `load_conversations`: foreign processes. The captured output is a parameter.
- JSON decoding and `String::from_utf8_lossy`: library behaviour. Log entries arrive decoded, with absent fields as "". Alias output arrives as lines.
- The OS clipboard: a foreign call. Its error, if any, is a parameter of `HandleKey`.
- `Instant`: wall-clock time. It is an integer parameter in milliseconds.
- The ratatui `ListState` scroll offset: only the selected index is modelled.
- `main.py`: a separate script, unrelated to the session.
- `Session.App.Tick` and `Session.App.HandleKey`: when the source panics, the process dies, possibly after part of a method has run; the model reports `Panicked` and keeps the state from before the step.
