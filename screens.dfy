/**
 * The small pieces of screen state the game edits in place: the typing box of a battle,
 * the scroll position of the word list, and the armed state of the settings screen's
 * reset button.
 */
module Screens {
  import opened Wrappers
  import Save

  // ---------------------------------------------------------------------------------------
  // The typing box

  /** The keys the typing box tells apart. */
  datatype Key = Return | Backspace | OtherKey

  /** A pygame event: a key press with the text it produces, or anything else. */
  datatype Event = KeyDown(key: Key, unicode: string) | OtherEvent

  /**
   * The text after an event: Return leaves it alone, Backspace drops the last character (an
   * empty text stays empty, as `text[:-1]` does), any other key appends what it types.
   */
  function Edited(text: string, e: Event): (t: string)
  {
    match e
    case OtherEvent => text
    case KeyDown(Return, _) => text
    case KeyDown(Backspace, _) => if text == [] then [] else text[..|text| - 1]
    case KeyDown(OtherKey, u) => text + u
  }

  /** Backspace on an empty box leaves it empty; on any other text it removes exactly the last character. */
  lemma BackspaceFacts(text: string, u: string)
    ensures Edited([], KeyDown(Backspace, u)) == []
    ensures text != [] ==> Edited(text, KeyDown(Backspace, u)) + [text[|text| - 1]] == text
  {
  }

  /** Backspace undoes typing one character. */
  lemma BackspaceUndoesKey(text: string, c: char, u: string)
    ensures Edited(Edited(text, KeyDown(OtherKey, [c])), KeyDown(Backspace, u)) == text
  {
    assert (text + [c])[..|text|] == text;
  }

  /** The text after typing the characters of `s` one key at a time. */
  function TypeAll(text: string, s: string): string
    decreases |s|
  {
    if s == [] then text else TypeAll(Edited(text, KeyDown(OtherKey, [s[0]])), s[1..])
  }

  /** Typing a word key by key appends exactly that word. */
  lemma {:induction false} TypeAllAppends(text: string, s: string)
    ensures TypeAll(text, s) == text + s
    decreases |s|
  {
    if s != [] {
      TypeAllAppends(text + [s[0]], s[1..]);
      assert text + [s[0]] + s[1..] == text + s;
    }
  }

  class InputBox {
    var text: string

    /** A new box is empty. */
    constructor ()
      ensures text == []
    {
      text := [];
    }

    /**
     * `handle_event(event)`: Return submits the text without clearing it; every other event
     * submits nothing and edits the text as `Edited` says.
     */
    method HandleEvent(e: Event) returns (submitted: Option<string>)
      modifies this
      ensures text == Edited(old(text), e)
      ensures submitted == if e.KeyDown? && e.key == Return then Some(old(text)) else None
    {
      if e.KeyDown? {
        if e.key == Return {
          return Some(text);
        } else if e.key == Backspace {
          text := if text == [] then [] else text[..|text| - 1];
        } else {
          text := text + e.unicode;
        }
      }
      return None;
    }
  }

  // ---------------------------------------------------------------------------------------
  // The word list's scroll position

  const ScreenHeight: int := 720
  const ItemHeight: int := 80
  /** Room above and below the list. */
  const Padding: int := 200
  /** How far one notch of the mouse wheel scrolls. */
  const WheelStep: int := 40

  /** `max_scroll` for a list of `n` words: how far the list reaches below the screen. */
  function MaxScroll(n: nat): (m: int)
  {
    var total := n * ItemHeight + Padding;
    if total - ScreenHeight > 0 then total - ScreenHeight else 0
  }

  /**
   * Six words fit on the screen and cannot be scrolled; from seven on, scrolling to the
   * bottom brings the end of the list exactly to the bottom of the screen.
   */
  lemma MaxScrollFacts(n: nat)
    ensures MaxScroll(n) >= 0
    ensures MaxScroll(n) == 0 <==> n <= 6
    ensures n >= 7 ==> MaxScroll(n) + ScreenHeight == n * ItemHeight + Padding
  {
  }

  /** The position after a wheel event of `y` notches (positive `y` scrolls up), kept within `0 .. max`. */
  function Scrolled(pos: int, y: int, max: int): (r: int)
    requires max >= 0
    ensures 0 <= r <= max
  {
    var p := pos - y * WheelStep;
    var q := if p < max then p else max;
    if q > 0 then q else 0
  }

  /**
   * The wheel moves the list by 40 pixels a notch where that stays in range, and otherwise
   * stops at the top or the bottom.
   */
  lemma ScrolledFacts(pos: int, y: int, max: int)
    requires max >= 0
    ensures 0 <= pos - y * WheelStep <= max ==> Scrolled(pos, y, max) == pos - y * WheelStep
    ensures pos - y * WheelStep <= 0 ==> Scrolled(pos, y, max) == 0
    ensures pos - y * WheelStep >= max ==> Scrolled(pos, y, max) == max
  {
  }

  /** Within range, a notch down and a notch up cancel out. */
  lemma WheelRoundTrip(pos: int, max: int)
    requires max >= 0 && 0 <= pos && pos + WheelStep <= max
    ensures Scrolled(Scrolled(pos, -1, max), 1, max) == pos
  {
    ScrolledFacts(pos, -1, max);
    ScrolledFacts(pos + WheelStep, 1, max);
  }

  class WordListScreen {
    const maxScroll: int
    var scrollY: int

    /** `WordListScreen()`: starts at the top. */
    constructor (wordCount: nat)
      ensures maxScroll == MaxScroll(wordCount) && scrollY == 0
    {
      maxScroll := MaxScroll(wordCount);
      scrollY := 0;
    }

    /** The mouse-wheel branch of `handle_event`: move, then clamp to `0 .. max_scroll`. */
    method OnWheel(y: int)
      requires maxScroll >= 0
      modifies this
      ensures scrollY == Scrolled(old(scrollY), y, maxScroll)
    {
      scrollY := scrollY - y * WheelStep;
      var capped := if scrollY < maxScroll then scrollY else maxScroll;
      scrollY := if capped > 0 then capped else 0;
    }
  }

  // ---------------------------------------------------------------------------------------
  // The settings screen's reset button

  /**
   * One click on "Reset progress": an unarmed button arms itself; an armed one resets the
   * save and disarms. The result is the new armed state and whether the save was reset.
   */
  function ResetClick(armed: bool): (r: (bool, bool))
    ensures r.1 <==> armed
    ensures r.0 <==> !armed
  {
    if !armed then (true, false) else (false, true)
  }

  /** The armed state and the number of resets after `n` clicks starting from `armed`. */
  function Clicks(armed: bool, n: nat): (bool, nat)
  {
    if n == 0 then (armed, 0)
    else
      var (a, k) := Clicks(armed, n - 1);
      var (a2, reset) := ResetClick(a);
      (a2, k + if reset then 1 else 0)
  }

  /**
   * From a fresh screen, `n` clicks reset the progress `n / 2` times: never after one click,
   * once after two, and the button is armed exactly after an odd number of clicks.
   */
  lemma {:induction false} ClicksFromFresh(n: nat)
    ensures Clicks(false, n) == (n % 2 == 1, n / 2)
  {
    if n > 0 {
      ClicksFromFresh(n - 1);
    }
  }

  class SettingsScreen {
    var resetConfirmed: bool
    const save: Save.SaveManager

    /** The button starts unarmed. */
    constructor (save: Save.SaveManager)
      ensures !resetConfirmed && this.save == save
    {
      this.save := save;
      resetConfirmed := false;
    }

    /** `_on_reset()`: arm, or reset the save and disarm. */
    method OnReset()
      modifies this, save
      ensures resetConfirmed == ResetClick(old(resetConfirmed)).0
      ensures ResetClick(old(resetConfirmed)).1 ==> save.data == Save.Default() && save.stored == Some(Save.Default())
      ensures !ResetClick(old(resetConfirmed)).1 ==> save.data == old(save.data) && save.stored == old(save.stored)
    {
      if !resetConfirmed {
        resetConfirmed := true;
      } else {
        save.ResetData();
        resetConfirmed := false;
      }
    }
  }
}
