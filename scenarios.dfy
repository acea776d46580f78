/** Concrete sessions that show, end to end, what the loop does with a
    given history, key presses and channel traffic. */
module Scenarios {
  import opened Entities
  import opened Navigation
  import opened Keys
  import opened SessionState
  import opened Session
  import History

  /** Two exchanges logged under the same conversation id, listed in
      that order, load as one conversation holding both exchanges in the
      order they are listed, under the name of the later entry. */
  lemma SameIdLoadsAsOneConversation(id: string, name1: string, name2: string,
                                     q1: string, a1: string, q2: string, a2: string)
    ensures History.Reverse(History.Runs([History.LogRecord(id, name1, q1, a1), History.LogRecord(id, name2, q2, a2)]))
            == [Conversation(id, name2, [Message(User, q1), Message(Assistant, a1), Message(User, q2), Message(Assistant, a2)])]
  {
    var e1 := History.LogRecord(id, name1, q1, a1);
    var e2 := History.LogRecord(id, name2, q2, a2);
    var c2 := Conversation(id, name2, History.Exchange(e2));
    assert History.Runs([e2]) == [c2] by {
      assert [e2][1..] == [];
    }
    assert History.Runs([e1, e2]) == [c2.(messages := History.Exchange(e1) + c2.messages)] by {
      assert [e1, e2][1..] == [e2];
    }
    var c := c2.(messages := History.Exchange(e1) + c2.messages);
    assert c.messages == [Message(User, q1), Message(Assistant, a1), Message(User, q2), Message(Assistant, a2)];
    assert History.Reverse([c]) == [c] by {
      assert [c][1..] == [];
    }
  }

  /** With no history, `j` in the conversation list selects index 0 of
      the empty list; the next remote line then makes `send_message`
      index past the end, and the loop panics. */
  method EmptyHistoryRemoteLinePanics(aliasLines: seq<string>, line: string) returns (outcome: Outcome)
    ensures outcome == Panicked
  {
    var app := new App(None, aliasLines);
    var pressed := app.HandleKey(Char('j'), 0, None);
    assert pressed == Continue;
    assert app.currentConversation == Some(0) && app.conversations == [];
    app.ReceiveRemoteLine(line);
    outcome := app.Tick(0);
  }

  /** `n` in the conversation list opens an empty conversation but keeps
      the message selection. Drawing slices the messages from
      `selected - height/2`, so a selection of 15 under a 20-row chat
      view slices 5..0 of the empty list at the next draw. */
  lemma NewConversationKeepsMessageSelection(s: Snapshot, models: seq<ModelInfo>, now: int)
    requires Consistent(s, models) && s.focus == ConversationList && s.inputMode == InputMode.Normal
    ensures var t := Dispatched(s, models, KeyAction(s.focus, s.inputMode, Char('n')), now, None);
            && t.currentConversation == Some(|s.conversations|)
            && t.conversations[|s.conversations|].messages == []
            && t.messageSelected == s.messageSelected
  {
  }

  /** An answer is not tied to the conversation it was asked in: a prompt
      submitted in conversation 0, followed by `Tab` back to the list and
      `j`, puts the answer in conversation 1. */
  lemma AnswerGoesWhereTheUserIs(s: Snapshot, models: seq<ModelInfo>, answer: string, now: int)
    requires Consistent(s, models) && |models| > 0
    requires |s.conversations| == 2 && s.currentConversation == Some(0)
    requires s.focus == Input && s.inputMode == Editing && s.showConversationList
    requires s.responses == [] && s.remoteCommands == []
    ensures var t1 := Dispatched(s, models, KeyAction(s.focus, s.inputMode, Enter), now, None);
            var t2 := Dispatched(t1, models, KeyAction(t1.focus, t1.inputMode, Tab), now, None);
            var t3 := Dispatched(t2, models, KeyAction(t2.focus, t2.inputMode, Char('j')), now, None);
            var t4 := Ticked(t3.(responses := [answer]), models, now);
            && t4.conversations[0].messages == s.conversations[0].messages + [Message(User, s.input)]
            && t4.conversations[1].messages == s.conversations[1].messages + [Message(Assistant, answer)]
            && t4.outbox == s.outbox + [Request(s.input, models[ModelIndex(s)].alias)]
  {
  }
}
