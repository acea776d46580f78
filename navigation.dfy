/** Wrap-around selection in the conversation, model and message lists
    (src/main.rs:178-234, 308-340) and the focus cycle (src/main.rs:150-176).
    Indices are `usize` in the source: `len() - 1` on an empty list
    underflows, which panics; the predicates below name exactly when. */
module Navigation {
  import opened Entities

  /** `next_*` evaluates `len() - 1` whenever something is selected. */
  predicate NextUnderflows(selected: Option<nat>, n: nat) {
    selected.Some? && n == 0
  }

  /** `previous_*` evaluates `len() - 1` only when index 0 is selected. */
  predicate PreviousUnderflows(selected: Option<nat>, n: nat) {
    selected == Some(0) && n == 0
  }

  /** The index `next_*` selects in a list of `n` items. */
  function NextIndex(selected: Option<nat>, n: nat): (r: nat)
    requires !NextUnderflows(selected, n)
    ensures selected.None? ==> r == 0
    ensures n > 0 ==> r < n
    ensures selected.Some? && selected.value < n ==> r == (selected.value + 1) % n
  {
    match selected
    case None => 0
    case Some(i) => if i >= n - 1 then 0 else i + 1
  }

  /** The index `previous_*` selects in a list of `n` items. */
  function PreviousIndex(selected: Option<nat>, n: nat): (r: nat)
    requires !PreviousUnderflows(selected, n)
    ensures selected.None? ==> r == 0
    ensures selected.Some? && selected.value < n ==> r < n && r == (selected.value - 1) % n
    ensures selected.Some? && selected.value > 0 ==> r == selected.value - 1
  {
    match selected
    case None => 0
    case Some(i) => if i == 0 then n - 1 else i - 1
  }

  /** Going forward then back (or back then forward) returns to where one
      started. */
  lemma PreviousUndoesNext(i: nat, n: nat)
    requires i < n
    ensures PreviousIndex(Some(NextIndex(Some(i), n)), n) == i
    ensures NextIndex(Some(PreviousIndex(Some(i), n)), n) == i
  {
  }

  /** `k` presses of "next" starting from index `i`. */
  function NextTimes(i: nat, n: nat, k: nat): (r: nat)
    requires i < n
    ensures r < n
    decreases k
  {
    if k == 0 then i else NextTimes(NextIndex(Some(i), n), n, k - 1)
  }

  /** `k` presses of "previous" starting from index `i`. */
  function PreviousTimes(i: nat, n: nat, k: nat): (r: nat)
    requires i < n
    ensures r < n
    decreases k
  {
    if k == 0 then i else PreviousTimes(PreviousIndex(Some(i), n), n, k - 1)
  }

  lemma {:induction false} NextTimesSplit(i: nat, n: nat, a: nat, b: nat)
    requires i < n
    ensures NextTimes(i, n, a + b) == NextTimes(NextTimes(i, n, a), n, b)
    decreases a
  {
    if a > 0 {
      NextTimesSplit(NextIndex(Some(i), n), n, a - 1, b);
    }
  }

  lemma {:induction false} PreviousTimesSplit(i: nat, n: nat, a: nat, b: nat)
    requires i < n
    ensures PreviousTimes(i, n, a + b) == PreviousTimes(PreviousTimes(i, n, a), n, b)
    decreases a
  {
    if a > 0 {
      PreviousTimesSplit(PreviousIndex(Some(i), n), n, a - 1, b);
    }
  }

  /** Before reaching the end, "next" just counts up ... */
  lemma {:induction false} NextTimesCountsUp(i: nat, n: nat, k: nat)
    requires i + k < n
    ensures NextTimes(i, n, k) == i + k
    decreases k
  {
    if k > 0 {
      NextTimesCountsUp(i + 1, n, k - 1);
    }
  }

  /** ... and before reaching the start, "previous" counts down. */
  lemma {:induction false} PreviousTimesCountsDown(i: nat, n: nat, k: nat)
    requires k <= i < n
    ensures PreviousTimes(i, n, k) == i - k
    decreases k
  {
    if k > 0 {
      PreviousTimesCountsDown(i - 1, n, k - 1);
    }
  }

  /** Pressing "next" (or "previous") `n` times on a list of `n` items
      comes back to the starting index. */
  lemma NavigationPeriod(i: nat, n: nat)
    requires i < n
    ensures NextTimes(i, n, n) == i
    ensures PreviousTimes(i, n, n) == i
  {
    NextTimesSplit(i, n, n - 1 - i, 1 + i);
    NextTimesCountsUp(i, n, n - 1 - i);
    NextTimesSplit(n - 1, n, 1, i);
    NextTimesCountsUp(0, n, i);
    PreviousTimesSplit(i, n, i, n - i);
    PreviousTimesCountsDown(i, n, i);
    PreviousTimesSplit(0, n, 1, n - 1 - i);
    PreviousTimesCountsDown(n - 1, n, n - 1 - i);
  }

  datatype Focus = ConversationList | ModelSelect | Chat | Input

  /** Position of a panel in the cycle when the conversation list is shown. */
  function Position(f: Focus): nat {
    match f
    case ConversationList => 0
    case ModelSelect => 1
    case Chat => 2
    case Input => 3
  }

  /** The panel `next_focus` moves to. With the list shown it steps round
      ConversationList, ModelSelect, Chat, Input; with it hidden it only
      ever lands on Chat or Input. */
  function FocusAfter(f: Focus, listShown: bool): (r: Focus)
    ensures listShown ==> Position(r) == (Position(f) + 1) % 4
    ensures !listShown ==> (r == Chat || r == Input) && r != f
  {
    match f
    case ConversationList => if listShown then ModelSelect else Chat
    case ModelSelect => if listShown then Chat else Input
    case Chat => Input
    case Input => if listShown then ConversationList else Chat
  }

  /** Four advances with the list shown, or two with it hidden from a
      visible panel, come back to the start. */
  lemma FocusPeriod(f: Focus)
    ensures FocusAfter(FocusAfter(FocusAfter(FocusAfter(f, true), true), true), true) == f
    ensures (f == Chat || f == Input) ==> FocusAfter(FocusAfter(f, false), false) == f
  {
  }
}
