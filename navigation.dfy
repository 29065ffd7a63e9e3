/**
 * The cursor over the generated codes and the buttons derived from it:
 * `show_next` / `show_prev` (main.py:426-438) move the cursor one step,
 * clamped at both ends, and `update_nav_buttons` (main.py:440-452) enables
 * the navigation and download buttons from the cursor and the list length.
 */
module Navigation {

  /** The cursor rule: 0 on an empty list, a valid position otherwise. */
  predicate CursorOk(count: nat, index: int) {
    if count == 0 then index == 0 else 0 <= index < count
  }

  /** The cursor after `show_next` over `count` codes. */
  function NextIndex(count: nat, index: int): (r: int)
    ensures CursorOk(count, index) ==> CursorOk(count, r)
    ensures r == index || (r == index + 1 && r < count)
  {
    if index < count - 1 then index + 1 else index
  }

  /** The cursor after `show_prev`. */
  function PrevIndex(count: nat, index: int): (r: int)
    ensures CursorOk(count, index) ==> CursorOk(count, r)
    ensures r == index || (r == index - 1 && r >= 0)
  {
    if index > 0 then index - 1 else index
  }

  /** A step back undoes a step forward that moved. */
  lemma PrevUndoesNext(count: nat, index: int)
    requires CursorOk(count, index) && index < count - 1
    ensures PrevIndex(count, NextIndex(count, index)) == index
  {
  }

  /** A step forward undoes a step back that moved. */
  lemma NextUndoesPrev(count: nat, index: int)
    requires CursorOk(count, index) && index > 0
    ensures NextIndex(count, PrevIndex(count, index)) == index
  {
  }

  /** The cursor after `k` presses of the next button. */
  function NextTimes(count: nat, index: int, k: nat): int {
    if k == 0 then index else NextIndex(count, NextTimes(count, index, k - 1))
  }

  /** The cursor after `k` presses of the previous button. */
  function PrevTimes(count: nat, index: int, k: nat): int {
    if k == 0 then index else PrevIndex(count, PrevTimes(count, index, k - 1))
  }

  function Min(a: int, b: int): int { if a <= b then a else b }
  function Max(a: int, b: int): int { if a >= b then a else b }

  /** Pressing next repeatedly walks to the last code and stays there: it
      clamps rather than wrapping around. */
  lemma {:induction false} NextTimesClamps(count: nat, index: int, k: nat)
    requires count > 0 && CursorOk(count, index)
    ensures NextTimes(count, index, k) == Min(index + k, count - 1)
  {
    if k > 0 {
      NextTimesClamps(count, index, k - 1);
    }
  }

  /** Pressing previous repeatedly walks to the first code and stays there. */
  lemma {:induction false} PrevTimesClamps(count: nat, index: int, k: nat)
    requires count > 0 && CursorOk(count, index)
    ensures PrevTimes(count, index, k) == Max(index - k, 0)
  {
    if k > 0 {
      PrevTimesClamps(count, index, k - 1);
    }
  }

  /** Which of the four buttons under the preview are enabled. */
  datatype NavButtons = NavButtons(prev: bool, next: bool, downloadSingle: bool, downloadAll: bool)

  const AllDisabled: NavButtons := NavButtons(false, false, false, false)

  /** The button states `update_nav_buttons` sets for `count` codes and
      cursor `index`: the two download buttons always agree and are enabled
      exactly when there is a code, and with a valid cursor on at most one
      code neither navigation button is enabled. */
  function NavRule(count: nat, index: int): (b: NavButtons)
    ensures b.downloadSingle == b.downloadAll == (count > 0)
    ensures CursorOk(count, index) && count <= 1 ==> !b.prev && !b.next
  {
    if count == 0 then AllDisabled
    else NavButtons(index > 0, index < count - 1, true, true)
  }

  /** The guard of `download_single_qr` (main.py:499) let through. */
  predicate SingleDownloadAllowed(count: nat, index: int) {
    count > 0 && index < count
  }

  /** The buttons tell the truth: under the cursor rule, a navigation button
      is enabled exactly when pressing it moves the cursor, the single
      download button exactly when a single download is not refused, the
      batch button exactly when there is something to save, and an empty
      list disables all four. */
  lemma NavRuleMatchesHandlers(count: nat, index: int)
    requires CursorOk(count, index)
    ensures NavRule(count, index).prev <==> PrevIndex(count, index) != index
    ensures NavRule(count, index).next <==> NextIndex(count, index) != index
    ensures NavRule(count, index).downloadSingle <==> SingleDownloadAllowed(count, index)
    ensures NavRule(count, index).downloadAll <==> count > 0
    ensures count == 0 <==> NavRule(count, index) == AllDisabled
  {
  }
}
