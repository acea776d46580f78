/** The mutable state of the session `App` (src/main.rs:80-108) as one
    value, and what each of its state-changing operations does to that
    value. Module Session proves the methods of the `App` class against
    these functions; the lemmas here state what the operations promise
    across several calls.

    Where the source panics (a `usize` underflow in `len() - 1`, an index
    past the end of a `Vec`), the predicates below say exactly when, and
    the step functions require that it does not happen. */
module SessionState {
  import opened Entities
  import opened Text
  import opened Navigation
  import opened Keys

  /** `Duration::from_secs(5)`, in milliseconds. */
  const FeedbackLifetime: int := 5000

  const RemoteAck: string := "Remote message received and sent!"
  const CopiedOk: string := "Message copied successfully!"
  const CopyFailedPrefix: string := "Failed to copy: "
  const NoMessageSelected: string := "No message selected"
  const NewConversationPrefix: string := "New Conversation "

  /** Every mutable field of `App`. The two channels become queues
      (oldest first); `outbox` holds the requests handed to worker threads
      that have not answered yet. */
  datatype Snapshot = Snapshot(
    input: string, inputMode: InputMode, focus: Focus, showConversationList: bool,
    conversations: seq<Conversation>, listSelected: Option<nat>, currentConversation: Option<nat>,
    modelSelected: Option<nat>, messageSelected: Option<nat>, state: AppState,
    feedback: Option<Feedback>, responses: seq<string>, remoteCommands: seq<string>,
    outbox: seq<Request>)

  /** A list selection the operations can produce: nothing, an index in
      range, or the `Some(0)` that `next`/`previous` leave on an empty
      list. */
  predicate SelectionFits(selected: Option<nat>, n: nat) {
    selected.None? || selected.value < n || selected.value == 0
  }

  /** The session invariant: the two conversation selections are always
      written together, the selections fit their lists, and Editing
      happens only in the input panel. */
  predicate Consistent(s: Snapshot, models: seq<ModelInfo>) {
    && s.listSelected == s.currentConversation
    && SelectionFits(s.listSelected, |s.conversations|)
    && SelectionFits(s.modelSelected, |models|)
    && (s.inputMode == Editing ==> s.focus == Input)
  }

  /** The state `App::new` starts in. */
  function Initial(conversations: seq<Conversation>): Snapshot {
    Snapshot("", InputMode.Normal, ConversationList, false, conversations, None, None,
             None, None, AppState.Normal, None, [], [], [])
  }

  /** `model_list_state.selected().unwrap_or(0)` */
  function ModelIndex(s: Snapshot): nat {
    s.modelSelected.GetOr(0)
  }

  predicate CurrentOutOfRange(s: Snapshot) {
    s.currentConversation.Some? && s.currentConversation.value >= |s.conversations|
  }

  /** `send_message` indexes `conversations` and then `models`. */
  predicate SendPanics(s: Snapshot, models: seq<ModelInfo>) {
    s.currentConversation.Some? && (CurrentOutOfRange(s) || ModelIndex(s) >= |models|)
  }

  predicate MessageNavigationPanics(s: Snapshot, forward: bool) {
    s.currentConversation.Some?
    && (CurrentOutOfRange(s)
        || var n := |s.conversations[s.currentConversation.value].messages|;
           if forward then NextUnderflows(s.messageSelected, n) else PreviousUnderflows(s.messageSelected, n))
  }

  /** `copy_selected_message_to_clipboard` indexes `conversations` only
      when a message is selected. */
  predicate CopyPanics(s: Snapshot) {
    s.currentConversation.Some? && s.messageSelected.Some? && CurrentOutOfRange(s)
  }

  /** Exactly when performing `a` panics in the source. */
  predicate ActionPanics(s: Snapshot, models: seq<ModelInfo>, a: Action) {
    match a
    case SelectNextConversation => NextUnderflows(s.listSelected, |s.conversations|)
    case SelectPreviousConversation => PreviousUnderflows(s.listSelected, |s.conversations|)
    case SelectNextModel => NextUnderflows(s.modelSelected, |models|)
    case SelectPreviousModel => PreviousUnderflows(s.modelSelected, |models|)
    case SelectNextMessage => MessageNavigationPanics(s, true)
    case SelectPreviousMessage => MessageNavigationPanics(s, false)
    case CopyMessage => CopyPanics(s)
    case Submit => SendPanics(s, models)
    case _ => false
  }

  /** Exactly when one tick panics: an answer arrives while the current
      index is out of range, or a remote line arrives while sending would
      panic. */
  predicate TickPanics(s: Snapshot, models: seq<ModelInfo>) {
    (|s.responses| > 0 && CurrentOutOfRange(s)) || (|s.remoteCommands| > 0 && SendPanics(s, models))
  }

  /** Once both lists are non-empty, no tick panics and the only key that
      can panic is message navigation in a conversation without messages
      that has a selected message. */
  lemma PanicsWithBothListsFilled(s: Snapshot, models: seq<ModelInfo>, a: Action)
    requires Consistent(s, models) && |s.conversations| > 0 && |models| > 0
    ensures !TickPanics(s, models)
    ensures ActionPanics(s, models, a) <==>
              && (a == SelectNextMessage || a == SelectPreviousMessage)
              && s.currentConversation.Some?
              && |s.conversations[s.currentConversation.value].messages| == 0
              && s.messageSelected.Some?
              && (a == SelectPreviousMessage ==> s.messageSelected.value == 0)
  {
  }

  /** `update_feedback`: the entry is dropped once `now` is strictly past
      its expiry. */
  function Expire(f: Option<Feedback>, now: int): (r: Option<Feedback>)
    ensures r.Some? <==> f.Some? && now <= f.value.expiresAt
    ensures r.Some? ==> r == f
  {
    if f.Some? && now > f.value.expiresAt then None else f
  }

  /** Expiry is lazy but consistent: checking at an earlier tick too does
      not change what a later tick sees. */
  lemma ExpiryIsMonotone(f: Option<Feedback>, t1: int, t2: int)
    requires t1 <= t2
    ensures Expire(Expire(f, t1), t2) == Expire(f, t2)
  {
  }

  /** `set_feedback` at time `now`. */
  function Shown(message: string, kind: FeedbackKind, now: int): Option<Feedback> {
    Some(Feedback(message, kind, now + FeedbackLifetime))
  }

  /** A conversation made by `start_new_conversation` when `count`
      conversations exist. */
  function FreshConversation(count: nat): Conversation {
    var id := DecimalString(count);
    Conversation(id, NewConversationPrefix + id, [])
  }

  /** Conversations made at different counts have different ids. */
  lemma FreshIdsDiffer(m: nat, n: nat)
    requires m != n
    ensures FreshConversation(m).id != FreshConversation(n).id
  {
    DecimalStringInjective(m, n);
  }

  /** `conversations` with `ms` appended to conversation `i`. */
  function AppendTo(conversations: seq<Conversation>, i: nat, ms: seq<Message>): seq<Conversation>
    requires i < |conversations|
  {
    conversations[i := conversations[i].(messages := conversations[i].messages + ms)]
  }

  /** `send_message`: the input becomes a user message of the current
      conversation and a request for the selected model; without a
      current conversation nothing happens. */
  function Sent(s: Snapshot, models: seq<ModelInfo>): Snapshot
    requires !SendPanics(s, models)
  {
    match s.currentConversation
    case None => s
    case Some(i) =>
      s.(conversations := s.conversations[i := WithMessage(s.conversations[i], Message(User, s.input))],
         input := "",
         state := Thinking,
         outbox := s.outbox + [Request(s.input, models[ModelIndex(s)].alias)])
  }

  /** Sending appends the typed text to the current conversation, and the
      request handed to the worker carries that same text. */
  lemma SendQueuesPrompt(s: Snapshot, models: seq<ModelInfo>)
    requires !SendPanics(s, models) && s.currentConversation.Some?
    ensures var t := Sent(s, models);
            var i := s.currentConversation.value;
            && |t.conversations| == |s.conversations|
            && t.conversations[i].messages == s.conversations[i].messages + [Message(User, s.input)]
            && (forall j :: 0 <= j < |s.conversations| && j != i ==> t.conversations[j] == s.conversations[j])
            && |t.outbox| == |s.outbox| + 1
            && t.outbox[|s.outbox|].prompt == s.input
            && t.outbox[|s.outbox|].modelAlias == models[ModelIndex(s)].alias
            && t.input == ""
  {
  }

  /** `check_for_response`: the oldest answer, if any, is taken from the
      channel; it becomes an assistant message of the conversation current
      at that moment, which is scrolled to the bottom. Without a current
      conversation the answer is dropped. */
  function Answered(s: Snapshot): Snapshot
    requires !(|s.responses| > 0 && CurrentOutOfRange(s))
  {
    if s.responses == [] then s
    else
      var t := s.(responses := s.responses[1..]);
      match s.currentConversation
      case None => t
      case Some(i) =>
        t.(conversations := s.conversations[i := WithMessage(s.conversations[i], Message(Assistant, s.responses[0]))],
           state := AppState.Normal,
           messageSelected := Some(|s.conversations[i].messages|))
  }

  /** An answer lands in the conversation current when it ARRIVES, as its
      last message, which becomes the selected one. */
  lemma AnswerLandsInCurrent(s: Snapshot)
    requires |s.responses| > 0 && s.currentConversation.Some? && !CurrentOutOfRange(s)
    ensures var t := Answered(s);
            var i := s.currentConversation.value;
            && |t.conversations| == |s.conversations|
            && t.conversations[i].messages == s.conversations[i].messages + [Message(Assistant, s.responses[0])]
            && t.messageSelected == Some(|t.conversations[i].messages| - 1)
            && (forall j :: 0 <= j < |s.conversations| && j != i ==> t.conversations[j] == s.conversations[j])
            && t.responses == s.responses[1..]
  {
  }

  /** Without a current conversation an answer is consumed and lost, and
      the state stays as it was (`Thinking` after a send). */
  lemma AnswerWithoutCurrentIsDropped(s: Snapshot)
    requires |s.responses| > 0 && s.currentConversation.None?
    ensures Answered(s).conversations == s.conversations
    ensures Answered(s).state == s.state
    ensures Answered(s).responses == s.responses[1..]
  {
  }

  /** `handle_remote_command`: the oldest remote line, if any, is put in
      the input and sent as if typed, and the acknowledgement is shown. */
  function Commanded(s: Snapshot, models: seq<ModelInfo>, now: int): Snapshot
    requires !(|s.remoteCommands| > 0 && SendPanics(s, models))
  {
    if s.remoteCommands == [] then s
    else
      Sent(s.(input := s.remoteCommands[0], remoteCommands := s.remoteCommands[1..]), models)
        .(feedback := Shown(RemoteAck, Positive, now))
  }

  /** A remote line is always acknowledged. With a current conversation
      it is sent like typed text; without one it stays in the input and
      nothing is sent. */
  lemma RemoteLineEffects(s: Snapshot, models: seq<ModelInfo>, now: int)
    requires |s.remoteCommands| > 0 && !SendPanics(s, models)
    ensures var t := Commanded(s, models, now);
            var line := s.remoteCommands[0];
            && t.feedback == Some(Feedback(RemoteAck, Positive, now + FeedbackLifetime))
            && t.remoteCommands == s.remoteCommands[1..]
            && (s.currentConversation.None? ==>
                  t.input == line && t.conversations == s.conversations && t.outbox == s.outbox)
            && (s.currentConversation.Some? ==>
                  var i := s.currentConversation.value;
                  && t.input == ""
                  && t.conversations[i].messages == s.conversations[i].messages + [Message(User, line)]
                  && t.outbox == s.outbox + [Request(line, models[ModelIndex(s)].alias)])
  {
  }

  /** The net effect of one pass of the main loop before drawing, stated
      independently of the three calls that make it up: feedback expiry,
      then at most one answer and at most one remote line, appended in
      that order to the conversation current at that moment. */
  function Ticked(s: Snapshot, models: seq<ModelInfo>, now: int): Snapshot
    requires !TickPanics(s, models)
  {
    var hasAnswer := |s.responses| > 0;
    var hasCommand := |s.remoteCommands| > 0;
    var t := s.(
      responses := if hasAnswer then s.responses[1..] else [],
      remoteCommands := if hasCommand then s.remoteCommands[1..] else [],
      feedback := if hasCommand then Shown(RemoteAck, Positive, now) else Expire(s.feedback, now));
    match s.currentConversation
    case None => t.(input := if hasCommand then s.remoteCommands[0] else s.input)
    case Some(i) =>
      if !hasAnswer && !hasCommand then t
      else
        var added := (if hasAnswer then [Message(Assistant, s.responses[0])] else [])
                     + (if hasCommand then [Message(User, s.remoteCommands[0])] else []);
        t.(conversations := AppendTo(s.conversations, i, added),
           input := if hasCommand then "" else s.input,
           state := if hasCommand then Thinking else AppState.Normal,
           messageSelected := if hasAnswer then Some(|s.conversations[i].messages|) else s.messageSelected,
           outbox := if hasCommand then s.outbox + [Request(s.remoteCommands[0], models[ModelIndex(s)].alias)]
                     else s.outbox)
  }

  /** Appending `a` to conversation `i` and then `b` is appending `a + b`. */
  lemma AppendTwice(cs: seq<Conversation>, i: nat, a: seq<Message>, b: seq<Message>)
    requires i < |cs|
    ensures AppendTo(AppendTo(cs, i, a), i, b) == AppendTo(cs, i, a + b)
  {
    assert cs[i].messages + a + b == cs[i].messages + (a + b);
  }

  lemma AppendNothing(cs: seq<Conversation>, i: nat)
    requires i < |cs|
    ensures AppendTo(cs, i, []) == cs
  {
    assert cs[i].messages + [] == cs[i].messages;
  }

  /** The loop's `update_feedback`, `check_for_response` and
      `handle_remote_command`, in that order, have the net effect
      `Ticked`. */
  lemma TickComposes(s: Snapshot, models: seq<ModelInfo>, now: int)
    requires !TickPanics(s, models)
    ensures !(|s.remoteCommands| > 0 && SendPanics(Answered(s.(feedback := Expire(s.feedback, now))), models))
    ensures Commanded(Answered(s.(feedback := Expire(s.feedback, now))), models, now) == Ticked(s, models, now)
  {
    var s1 := s.(feedback := Expire(s.feedback, now));
    var s2 := Answered(s1);
    var s3 := Commanded(s2, models, now);
    if s.currentConversation.Some? && (|s.responses| > 0 || |s.remoteCommands| > 0) {
      var i := s.currentConversation.value;
      var a := if |s.responses| > 0 then [Message(Assistant, s.responses[0])] else [];
      var b := if |s.remoteCommands| > 0 then [Message(User, s.remoteCommands[0])] else [];
      if a == [] {
        AppendNothing(s.conversations, i);
      }
      assert s2.conversations == AppendTo(s.conversations, i, a);
      if b == [] {
        AppendNothing(s2.conversations, i);
      }
      assert s3.conversations == AppendTo(s2.conversations, i, b);
      AppendTwice(s.conversations, i, a, b);
    }
  }

  /** `copy_selected_message_to_clipboard`: the text handed to the
      clipboard, or the error shown. `clipboardError` is what the OS
      clipboard reports. */
  function CopySelectedMessage(s: Snapshot, clipboardError: Option<string>): (r: Result<string, string>)
    requires !CopyPanics(s)
    ensures r.Ok? <==> clipboardError.None? && s.currentConversation.Some? && s.messageSelected.Some?
                       && s.messageSelected.value < |s.conversations[s.currentConversation.value].messages|
    ensures r.Ok? ==> r.value == s.conversations[s.currentConversation.value].messages[s.messageSelected.value].content
    ensures r.Err? ==>
              r.error == (if s.currentConversation.Some? && s.messageSelected.Some?
                             && s.messageSelected.value < |s.conversations[s.currentConversation.value].messages|
                          then clipboardError.value else NoMessageSelected)
  {
    if s.currentConversation.Some? && s.messageSelected.Some?
       && s.messageSelected.value < |s.conversations[s.currentConversation.value].messages|
    then
      match clipboardError
      case None => Ok(s.conversations[s.currentConversation.value].messages[s.messageSelected.value].content)
      case Some(e) => Err(e)
    else Err(NoMessageSelected)
  }

  /** `toggle_conversation_list`: hiding the list while it has the focus
      moves the focus on as `next_focus` does. */
  function Toggled(s: Snapshot): Snapshot {
    if s.showConversationList && s.focus == ConversationList
    then s.(showConversationList := false, inputMode := InputMode.Normal, focus := FocusAfter(ConversationList, false))
    else s.(showConversationList := !s.showConversationList)
  }

  /** Toggling flips the flag. Hiding the list moves the focus off the
      list, but a focus on the model panel, hidden with it, stays there;
      in every other case focus and mode are left alone. */
  lemma ToggleFocus(s: Snapshot)
    ensures Toggled(s).showConversationList == !s.showConversationList
    ensures s.showConversationList ==> Toggled(s).focus != ConversationList
    ensures s.focus == ModelSelect ==> Toggled(s).focus == ModelSelect
    ensures Toggled(s).focus != s.focus ==> s.showConversationList && s.focus == ConversationList && Toggled(s).focus == Chat
    ensures Toggled(s).inputMode != s.inputMode ==> s.inputMode == Editing
  {
  }

  /** What performing action `a` does, key by key, as the match in the
      main loop (src/main.rs:441-531) does it. */
  function Dispatched(s: Snapshot, models: seq<ModelInfo>, a: Action, now: int, clipboardError: Option<string>): Snapshot
    requires !ActionPanics(s, models, a)
  {
    match a
    case SelectNextConversation =>
      var i := Some(NextIndex(s.listSelected, |s.conversations|));
      s.(listSelected := i, currentConversation := i)
    case SelectPreviousConversation =>
      var i := Some(PreviousIndex(s.listSelected, |s.conversations|));
      s.(listSelected := i, currentConversation := i)
    case OpenSelected => s.(currentConversation := s.listSelected, focus := Chat)
    case NewConversation =>
      var n := |s.conversations|;
      s.(conversations := s.conversations + [FreshConversation(n)],
         listSelected := Some(n), currentConversation := Some(n), focus := Input)
    case SelectNextModel => s.(modelSelected := Some(NextIndex(s.modelSelected, |models|)))
    case SelectPreviousModel => s.(modelSelected := Some(PreviousIndex(s.modelSelected, |models|)))
    case SelectNextMessage =>
      (match s.currentConversation
       case None => s
       case Some(i) => s.(messageSelected := Some(NextIndex(s.messageSelected, |s.conversations[i].messages|))))
    case SelectPreviousMessage =>
      (match s.currentConversation
       case None => s
       case Some(i) => s.(messageSelected := Some(PreviousIndex(s.messageSelected, |s.conversations[i].messages|))))
    case CopyMessage =>
      (match CopySelectedMessage(s, clipboardError)
       case Ok(_) => s.(feedback := Shown(CopiedOk, Positive, now))
       case Err(e) => s.(feedback := Shown(CopyFailedPrefix + e, Negative, now)))
    case AdvanceFocus => s.(inputMode := InputMode.Normal, focus := FocusAfter(s.focus, s.showConversationList))
    case ToggleList => Toggled(s)
    case StartEditing => s.(focus := Input, inputMode := Editing)
    case Quit => s
    case Submit => Sent(s, models).(inputMode := InputMode.Normal)
    case InsertChar(c) => s.(input := s.input + [c])
    case DeleteChar => if s.input == [] then s else s.(input := s.input[..|s.input| - 1])
    case CancelEditing => s.(inputMode := InputMode.Normal)
    case Ignore => s
  }

  /** Every key keeps the session invariant. */
  lemma DispatchKeepsConsistent(s: Snapshot, models: seq<ModelInfo>, key: Key, now: int, clipboardError: Option<string>)
    requires Consistent(s, models) && !ActionPanics(s, models, KeyAction(s.focus, s.inputMode, key))
    ensures Consistent(Dispatched(s, models, KeyAction(s.focus, s.inputMode, key), now, clipboardError), models)
  {
  }

  /** Every tick keeps the session invariant. */
  lemma TickKeepsConsistent(s: Snapshot, models: seq<ModelInfo>, now: int)
    requires Consistent(s, models) && !TickPanics(s, models)
    ensures Consistent(Ticked(s, models, now), models)
  {
  }

  /** Typing a character and deleting it restores the input. */
  lemma DeleteUndoesInsert(s: Snapshot, models: seq<ModelInfo>, c: char, now: int, clipboardError: Option<string>)
    ensures var t := Dispatched(s, models, InsertChar(c), now, clipboardError);
            Dispatched(t, models, DeleteChar, now, clipboardError) == s
  {
  }
}
