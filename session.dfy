/** The session state `App` (src/main.rs:80-384) and the two steps of the
    main loop that mutate it: the per-tick drain (src/main.rs:432-439) and
    the key dispatch (src/main.rs:441-531). The methods that touch several
    fields are proved against the function of module SessionState that
    says what they do to the whole state; the list and focus methods
    against module Navigation; the rest state their new fields directly.

    The two channels become queues (oldest first) that the loop drains one
    entry per tick; spawning a worker becomes appending a `Request` to
    `outbox`, and the worker's answer arrives through `DeliverAnswer`.
    Where the source panics, the loop step returns `Panicked` and changes
    nothing: the process dies there. */
module Session {
  import opened Entities
  import opened Text
  import opened Navigation
  import opened Keys
  import opened SessionState
  import Aliases
  import History
  import Inference

  datatype Outcome = Continue | Exit | Panicked

  class App {
    var input: string
    var inputMode: InputMode
    var focus: Focus
    var showConversationList: bool
    var conversations: seq<Conversation>
    /** `conversation_list_state.selected()` */
    var listSelected: Option<nat>
    /** `current_conversation_index` */
    var currentConversation: Option<nat>
    /** Loaded once by `App::new`, never written again. */
    const models: seq<ModelInfo>
    /** `model_list_state.selected()` */
    var modelSelected: Option<nat>
    /** `chat_state.list_state.selected()` */
    var messageSelected: Option<nat>
    var state: AppState
    var feedback: Option<Feedback>
    /** Answers sent by finished workers and not yet received. */
    var responses: seq<string>
    /** Lines sent by connection handlers and not yet received. */
    var remoteCommands: seq<string>
    /** Requests handed to workers that have not answered yet. */
    var outbox: seq<Request>

    function View(): Snapshot
      reads this
    {
      Snapshot(input, inputMode, focus, showConversationList, conversations, listSelected,
               currentConversation, modelSelected, messageSelected, state, feedback,
               responses, remoteCommands, outbox)
    }

    ghost predicate Valid()
      reads this
    {
      Consistent(View(), models)
    }

    /** `App::new`, given what `llm logs list --json` and `llm aliases`
        printed (`None` when the output is not a JSON array). */
    constructor (logs: Option<seq<History.LogRecord>>, aliasLines: seq<string>)
      ensures Valid()
      ensures logs.None? ==> View() == Initial([])
      ensures logs.Some? ==> View() == Initial(History.Reverse(History.Runs(logs.value)))
      ensures models == Aliases.LoadModels(aliasLines)
    {
      var loaded := History.LoadConversations(logs);
      conversations := loaded;
      models := Aliases.LoadModels(aliasLines);
      input := "";
      inputMode := InputMode.Normal;
      focus := ConversationList;
      listSelected := None;
      currentConversation := None;
      modelSelected := None;
      showConversationList := false;
      messageSelected := None;
      feedback := None;
      state := AppState.Normal;
      responses := [];
      remoteCommands := [];
      outbox := [];
    }

    method ExitEditMode()
      requires Valid()
      modifies this`inputMode
      ensures Valid() && inputMode == InputMode.Normal
    {
      if inputMode == Editing {
        inputMode := InputMode.Normal;
      }
    }

    method NextFocus()
      requires Valid()
      modifies this`inputMode, this`focus
      ensures Valid()
      ensures inputMode == InputMode.Normal && focus == FocusAfter(old(focus), showConversationList)
    {
      ExitEditMode();
      focus := FocusAfter(focus, showConversationList);
    }

    method ToggleConversationList()
      requires Valid()
      modifies this`showConversationList, this`focus, this`inputMode
      ensures Valid()
      ensures View() == Toggled(old(View()))
    {
      showConversationList := !showConversationList;
      if !showConversationList && focus == ConversationList {
        NextFocus();
      }
    }

    method NextConversation()
      requires Valid() && !NextUnderflows(listSelected, |conversations|)
      modifies this`listSelected, this`currentConversation
      ensures Valid()
      ensures listSelected == currentConversation == Some(NextIndex(old(listSelected), |conversations|))
    {
      var i := match listSelected
        case Some(i) => if i >= |conversations| - 1 then 0 else i + 1
        case None => 0;
      listSelected := Some(i);
      currentConversation := Some(i);
    }

    method PreviousConversation()
      requires Valid() && !PreviousUnderflows(listSelected, |conversations|)
      modifies this`listSelected, this`currentConversation
      ensures Valid()
      ensures listSelected == currentConversation == Some(PreviousIndex(old(listSelected), |conversations|))
    {
      var i := match listSelected
        case Some(i) => if i == 0 then |conversations| - 1 else i - 1
        case None => 0;
      listSelected := Some(i);
      currentConversation := Some(i);
    }

    method NextModel()
      requires Valid() && !NextUnderflows(modelSelected, |models|)
      modifies this`modelSelected
      ensures Valid()
      ensures modelSelected == Some(NextIndex(old(modelSelected), |models|))
    {
      var i := match modelSelected
        case Some(i) => if i >= |models| - 1 then 0 else i + 1
        case None => 0;
      modelSelected := Some(i);
    }

    method PreviousModel()
      requires Valid() && !PreviousUnderflows(modelSelected, |models|)
      modifies this`modelSelected
      ensures Valid()
      ensures modelSelected == Some(PreviousIndex(old(modelSelected), |models|))
    {
      var i := match modelSelected
        case Some(i) => if i == 0 then |models| - 1 else i - 1
        case None => 0;
      modelSelected := Some(i);
    }

    method NextMessage()
      requires Valid() && !MessageNavigationPanics(View(), true)
      modifies this`messageSelected
      ensures Valid()
      ensures currentConversation.None? ==> messageSelected == old(messageSelected)
      ensures currentConversation.Some? ==>
                messageSelected == Some(NextIndex(old(messageSelected), |conversations[currentConversation.value].messages|))
    {
      if currentConversation.Some? {
        var messages := conversations[currentConversation.value].messages;
        var i := match messageSelected
          case Some(i) => if i >= |messages| - 1 then 0 else i + 1
          case None => 0;
        messageSelected := Some(i);
      }
    }

    method PreviousMessage()
      requires Valid() && !MessageNavigationPanics(View(), false)
      modifies this`messageSelected
      ensures Valid()
      ensures currentConversation.None? ==> messageSelected == old(messageSelected)
      ensures currentConversation.Some? ==>
                messageSelected == Some(PreviousIndex(old(messageSelected), |conversations[currentConversation.value].messages|))
    {
      if currentConversation.Some? {
        var messages := conversations[currentConversation.value].messages;
        var i := match messageSelected
          case Some(i) => if i == 0 then |messages| - 1 else i - 1
          case None => 0;
        messageSelected := Some(i);
      }
    }

    method SendMessage()
      requires Valid() && !SendPanics(View(), models)
      modifies this`conversations, this`input, this`state, this`outbox
      ensures Valid()
      ensures View() == Sent(old(View()), models)
    {
      if currentConversation.Some? {
        var index := currentConversation.value;
        var prompt := input;
        conversations := conversations[index := WithMessage(conversations[index], Message(User, prompt))];
        input := "";
        state := Thinking;
        var modelAlias := models[ModelIndex(View())].alias;
        outbox := outbox + [Request(prompt, modelAlias)];
      }
    }

    method ScrollToBottom()
      requires Valid() && !CurrentOutOfRange(View())
      modifies this`messageSelected
      ensures Valid()
      ensures currentConversation.Some? && |conversations[currentConversation.value].messages| > 0 ==>
                messageSelected == Some(|conversations[currentConversation.value].messages| - 1)
      ensures currentConversation.None? || |conversations[currentConversation.value].messages| == 0 ==>
                messageSelected == old(messageSelected)
    {
      if currentConversation.Some? {
        var messageCount := |conversations[currentConversation.value].messages|;
        if messageCount > 0 {
          messageSelected := Some(messageCount - 1);
        }
      }
    }

    method CheckForResponse()
      requires Valid() && !(|responses| > 0 && CurrentOutOfRange(View()))
      modifies this`responses, this`conversations, this`state, this`messageSelected
      ensures Valid()
      ensures View() == Answered(old(View()))
    {
      if |responses| > 0 {
        var response := responses[0];
        responses := responses[1..];
        if currentConversation.Some? {
          var index := currentConversation.value;
          conversations := conversations[index := WithMessage(conversations[index], Message(Assistant, response))];
          state := AppState.Normal;
          ScrollToBottom();
        }
      }
    }

    method StartNewConversation()
      requires Valid()
      modifies this`conversations, this`listSelected, this`currentConversation
      ensures Valid()
      ensures conversations == old(conversations) + [FreshConversation(|old(conversations)|)]
      ensures listSelected == currentConversation == Some(|old(conversations)|)
    {
      var newId := DecimalString(|conversations|);
      var newConversation := Conversation(newId, NewConversationPrefix + newId, []);
      conversations := conversations + [newConversation];
      currentConversation := Some(|conversations| - 1);
      listSelected := Some(|conversations| - 1);
    }

    method SetFeedback(message: string, kind: FeedbackKind, now: int)
      requires Valid()
      modifies this`feedback
      ensures Valid()
      ensures feedback == Shown(message, kind, now)
    {
      feedback := Some(Feedback(message, kind, now + FeedbackLifetime));
    }

    method UpdateFeedback(now: int)
      requires Valid()
      modifies this`feedback
      ensures Valid()
      ensures feedback == Expire(old(feedback), now)
    {
      if feedback.Some? && now > feedback.value.expiresAt {
        feedback := None;
      }
    }

    method HandleRemoteCommand(now: int)
      requires Valid() && !(|remoteCommands| > 0 && SendPanics(View(), models))
      modifies this`remoteCommands, this`input, this`conversations, this`state, this`outbox, this`feedback
      ensures Valid()
      ensures View() == Commanded(old(View()), models, now)
    {
      if |remoteCommands| > 0 {
        input := remoteCommands[0];
        remoteCommands := remoteCommands[1..];
        SendMessage();
        SetFeedback(RemoteAck, Positive, now);
      }
    }

    /** One pass of the main loop before drawing. */
    method Tick(now: int) returns (outcome: Outcome)
      requires Valid()
      modifies this
      ensures Valid()
      ensures outcome != Exit
      ensures outcome == Panicked <==> old(TickPanics(View(), models))
      ensures outcome == Panicked ==> unchanged(this)
      ensures outcome == Continue ==> View() == Ticked(old(View()), models, now)
    {
      if TickPanics(View(), models) {
        return Panicked;
      }
      ghost var s := View();
      TickComposes(s, models, now);
      TickKeepsConsistent(s, models, now);
      UpdateFeedback(now);
      assert View() == s.(feedback := Expire(s.feedback, now));
      CheckForResponse();
      HandleRemoteCommand(now);
      outcome := Continue;
    }

    /** The arrow and `j`/`k` keys of the three lists. */
    method Navigate(action: Action)
      requires Valid() && !ActionPanics(View(), models, action)
      requires action in {SelectNextConversation, SelectPreviousConversation, SelectNextModel,
                          SelectPreviousModel, SelectNextMessage, SelectPreviousMessage}
      modifies this`listSelected, this`currentConversation, this`modelSelected, this`messageSelected
      ensures View() == Dispatched(old(View()), models, action, 0, None)
    {
      match action {
        case SelectNextConversation => NextConversation();
        case SelectPreviousConversation => PreviousConversation();
        case SelectNextModel => NextModel();
        case SelectPreviousModel => PreviousModel();
        case SelectNextMessage => NextMessage();
        case SelectPreviousMessage => PreviousMessage();
      }
    }

    /** The keys of the input panel in Editing mode, other than `Tab`. */
    method Edit(action: Action)
      requires Valid() && !ActionPanics(View(), models, action)
      requires action.InsertChar? || action in {Submit, DeleteChar, CancelEditing}
      modifies this`conversations, this`input, this`state, this`outbox, this`inputMode
      ensures View() == Dispatched(old(View()), models, action, 0, None)
    {
      match action {
        case Submit =>
          SendMessage();
          inputMode := InputMode.Normal;
        case InsertChar(c) => input := input + [c];
        case DeleteChar =>
          if input != [] {
            input := input[..|input| - 1];
          }
        case CancelEditing => inputMode := InputMode.Normal;
      }
    }

    /** The keys that move between panels, show or hide the list, or open
        a conversation. */
    method SwitchPanel(action: Action)
      requires Valid()
      requires action in {OpenSelected, NewConversation, AdvanceFocus, ToggleList, StartEditing}
      modifies this`conversations, this`listSelected, this`currentConversation, this`focus,
               this`inputMode, this`showConversationList
      ensures View() == Dispatched(old(View()), models, action, 0, None)
    {
      match action {
        case OpenSelected =>
          currentConversation := listSelected;
          focus := Chat;
        case NewConversation =>
          StartNewConversation();
          focus := Input;
        case AdvanceFocus => NextFocus();
        case ToggleList => ToggleConversationList();
        case StartEditing =>
          focus := Input;
          inputMode := Editing;
      }
    }

    /** The body of the key match in the main loop, for an action that
        does not panic. */
    method Perform(action: Action, now: int, clipboardError: Option<string>)
      requires Valid() && !ActionPanics(View(), models, action)
      modifies this
      ensures View() == Dispatched(old(View()), models, action, now, clipboardError)
    {
      match action
      case CopyMessage =>
        match CopySelectedMessage(View(), clipboardError) {
          case Ok(_) => SetFeedback(CopiedOk, Positive, now);
          case Err(e) => SetFeedback(CopyFailedPrefix + e, Negative, now);
        }
      case Quit =>
      case Ignore =>
      case OpenSelected | NewConversation | AdvanceFocus | ToggleList | StartEditing => SwitchPanel(action);
      case Submit | InsertChar(_) | DeleteChar | CancelEditing => Edit(action);
      case SelectNextConversation | SelectPreviousConversation | SelectNextModel | SelectPreviousModel
        | SelectNextMessage | SelectPreviousMessage => Navigate(action);
    }

    /** One key press, read after drawing. */
    method HandleKey(key: Key, now: int, clipboardError: Option<string>) returns (outcome: Outcome)
      requires Valid()
      modifies this
      ensures Valid()
      ensures outcome == Exit <==> KeyAction(old(focus), old(inputMode), key) == Quit
      ensures outcome == Panicked <==> old(ActionPanics(View(), models, KeyAction(focus, inputMode, key)))
      ensures outcome != Continue ==> unchanged(this)
      ensures outcome == Continue ==>
                View() == Dispatched(old(View()), models, KeyAction(old(focus), old(inputMode), key), now, clipboardError)
    {
      var action := KeyAction(focus, inputMode, key);
      if action == Quit {
        return Exit;
      }
      if ActionPanics(View(), models, action) {
        return Panicked;
      }
      DispatchKeepsConsistent(View(), models, key, now, clipboardError);
      Perform(action, now, clipboardError);
      outcome := Continue;
    }

    /** A worker thread finishing request `k` (workers finish in any
        order): `run_llm`'s answer, composed from what the `llm` process
        printed and how it exited, is sent on the answer channel. */
    method DeliverAnswer(k: nat, stdout: string, stderr: string, exitOk: bool)
      requires Valid() && k < |outbox|
      modifies this`outbox, this`responses
      ensures Valid()
      ensures outbox == old(outbox[..k] + outbox[k + 1..])
      ensures |responses| == |old(responses)| + 1 && responses[..|old(responses)|] == old(responses)
      ensures var answer := responses[|old(responses)|];
              && |answer| >= |stdout| && answer[..|stdout|] == stdout
              && (exitOk <==> |answer| == |stdout|)
              && (!exitOk ==> answer[|stdout|..] == Inference.ErrorMarker + stderr)
    {
      var answer := Inference.ComposeAnswer(stdout, stderr, exitOk);
      outbox := outbox[..k] + outbox[k + 1..];
      responses := responses + [answer];
    }

    /** `handle_client`: the first line a TCP client sends, trimmed, is
        sent on the remote-command channel. */
    method ReceiveRemoteLine(line: string)
      requires Valid()
      modifies this`remoteCommands
      ensures Valid()
      ensures remoteCommands == old(remoteCommands) + [Trim(line)]
    {
      remoteCommands := remoteCommands + [Trim(line)];
    }
  }
}
