/** The key-dispatch table of the main loop (src/main.rs:444-531): which
    action a key press triggers, given the focused panel and the input
    mode. The effect of each action is in module Session. */
module Keys {
  import opened Entities
  import opened Navigation

  /** The key codes the loop distinguishes; every other code is `Other`. */
  datatype Key = Char(c: char) | Enter | Tab | Backspace | Esc | Up | Down | Other

  datatype Action =
    | SelectNextConversation | SelectPreviousConversation | OpenSelected | NewConversation
    | SelectNextModel | SelectPreviousModel
    | SelectNextMessage | SelectPreviousMessage | CopyMessage
    | AdvanceFocus | ToggleList | StartEditing | Quit
    | Submit | InsertChar(c: char) | DeleteChar | CancelEditing
    | Ignore

  predicate IsEditing(focus: Focus, mode: InputMode) {
    focus == Input && mode == Editing
  }

  /** `Tab` in Editing sets Normal and then calls `next_focus`, which sets
      Normal anyway, so it is the same action as `Tab` elsewhere; `i` in
      Input/Normal sets Editing with focus already on Input, the same
      action as `i` on the other panels. */
  function KeyAction(focus: Focus, mode: InputMode, key: Key): (a: Action)
    ensures key == Tab ==> a == AdvanceFocus
    ensures a == Quit <==> key == Char('q') && !IsEditing(focus, mode)
    ensures a == ToggleList <==> key == Char('h') && !IsEditing(focus, mode)
    ensures a == StartEditing <==> key == Char('i') && !IsEditing(focus, mode)
    ensures IsEditing(focus, mode) && key.Char? ==> a == InsertChar(key.c)
    ensures a.InsertChar? || a in {Submit, DeleteChar, CancelEditing} ==> IsEditing(focus, mode)
    ensures a in {SelectNextConversation, SelectPreviousConversation, OpenSelected, NewConversation} ==> focus == ConversationList
    ensures a in {SelectNextModel, SelectPreviousModel} ==> focus == ModelSelect
    ensures a in {SelectNextMessage, SelectPreviousMessage, CopyMessage} ==> focus == Chat
  {
    match focus
    case ConversationList =>
      (match key
       case Char('j') => SelectNextConversation
       case Down => SelectNextConversation
       case Char('k') => SelectPreviousConversation
       case Up => SelectPreviousConversation
       case Enter => OpenSelected
       case Char('n') => NewConversation
       case Tab => AdvanceFocus
       case Char('h') => ToggleList
       case Char('i') => StartEditing
       case Char('q') => Quit
       case _ => Ignore)
    case ModelSelect =>
      (match key
       case Char('j') => SelectNextModel
       case Down => SelectNextModel
       case Char('k') => SelectPreviousModel
       case Up => SelectPreviousModel
       case Tab => AdvanceFocus
       case Char('h') => ToggleList
       case Char('i') => StartEditing
       case Char('q') => Quit
       case _ => Ignore)
    case Chat =>
      (match key
       case Tab => AdvanceFocus
       case Char('h') => ToggleList
       case Char('j') => SelectNextMessage
       case Down => SelectNextMessage
       case Char('k') => SelectPreviousMessage
       case Up => SelectPreviousMessage
       case Char('i') => StartEditing
       case Char('y') => CopyMessage
       case Char('q') => Quit
       case _ => Ignore)
    case Input =>
      (match mode
       case Normal =>
         (match key
          case Char('i') => StartEditing
          case Tab => AdvanceFocus
          case Char('h') => ToggleList
          case Char('q') => Quit
          case _ => Ignore)
       case Editing =>
         (match key
          case Enter => Submit
          case Char(c) => InsertChar(c)
          case Backspace => DeleteChar
          case Esc => CancelEditing
          case Tab => AdvanceFocus
          case _ => Ignore))
  }

  /** Outside Editing the arrow keys and `j`/`k` are the same command. */
  lemma ArrowsAreVimKeys(focus: Focus, mode: InputMode)
    requires !IsEditing(focus, mode)
    ensures KeyAction(focus, mode, Down) == KeyAction(focus, mode, Char('j'))
    ensures KeyAction(focus, mode, Up) == KeyAction(focus, mode, Char('k'))
  {
  }
}
