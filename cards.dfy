/** Vocabulary cards: how a card's mode is read from the word list, what the question shows, and how an answer is judged. */
module Cards {
  import opened Wrappers
  import opened Text

  const Selection: string := "SELECTION"
  const Typing: string := "TYPING"

  /**
   * A card. `mode` is the upper-cased mode string; `isCorrect` is the last verdict shown on
   * the card (None until answered); `typedText` is what the player has typed so far.
   */
  datatype Card = Card(
    id: int, word: string, meaning: string, mastery: int,
    mode: string, isCorrect: Option<bool>, typedText: string)

  /** An entry of the word list; `mastery` and `mode` may be absent. */
  datatype WordEntry = WordEntry(id: int, word: string, meaning: string, mastery: Option<int>, mode: Option<string>)

  /**
   * `data.get('mode', 'select').upper()`, with "SELECT" renamed to "SELECTION". An absent
   * mode and any spelling of "select" or "selection" give selection mode; any spelling of
   * "typing" gives typing mode; anything else is kept upper-cased.
   */
  function CardMode(raw: Option<string>): (m: string)
    ensures raw.None? ==> m == Selection
    ensures raw.Some? ==> (m == Selection <==> Upper(raw.value) in {"SELECT", "SELECTION"})
    ensures raw.Some? ==> (m == Typing <==> Upper(raw.value) == "TYPING")
    ensures m != "SELECT"
  {
    var u := Upper(if raw.Some? then raw.value else "select");
    UpperSelect();
    if u == "SELECT" then Selection else u
  }

  lemma UpperSelect()
    ensures Upper("select") == "SELECT"
  {
    var u := Upper("select");
    assert u[0] == 'S' && u[1] == 'E' && u[2] == 'L' && u[3] == 'E' && u[4] == 'C' && u[5] == 'T';
  }

  /** `Card(data)`: a fresh card, not yet answered and with nothing typed. */
  function NewCard(e: WordEntry): (c: Card)
    ensures c.id == e.id && c.word == e.word && c.meaning == e.meaning
    ensures c.mastery == (if e.mastery.Some? then e.mastery.value else 0)
    ensures c.mode == CardMode(e.mode) && c.isCorrect.None? && c.typedText == []
  {
    Card(e.id, e.word, e.meaning, if e.mastery.Some? then e.mastery.value else 0, CardMode(e.mode), None, "")
  }

  /** `"_ " * n`: one blank per letter still to type (none for n <= 0). */
  function Blanks(n: int): (r: string)
    ensures |r| == if n <= 0 then 0 else 2 * n
    ensures forall i :: 0 <= i < |r| ==> r[i] == if i % 2 == 0 then '_' else ' '
    decreases n
  {
    if n <= 0 then "" else "_ " + Blanks(n - 1)
  }

  /** The part of the hint the player already sees: what was typed, or else the first letter. */
  function Lead(c: Card): string
    requires c.typedText == [] ==> c.word != []
  {
    if c.typedText == [] then [c.word[0]] else c.typedText
  }

  /** How many letters of the word are still blank in the hint. */
  function Remaining(c: Card): int
  {
    if c.typedText == [] then |c.word| - 1 else |c.word| - |c.typedText|
  }

  /**
   * `get_display_text()`: the word itself in selection mode; in typing mode the lead, a
   * space, then "_ " for every letter not yet typed; nothing (Python's None) in any other
   * mode. The first letter of an empty word does not exist, so typing mode with nothing
   * typed needs a non-empty word.
   */
  function DisplayText(c: Card): (r: Option<string>)
    requires c.mode == Typing && c.typedText == [] ==> c.word != []
    ensures c.mode == Selection ==> r == Some(c.word)
    ensures c.mode == Typing ==>
              && r.Some?
              && var lead, t := Lead(c), r.value;
              && |t| == |lead| + 1 + (if Remaining(c) <= 0 then 0 else 2 * Remaining(c))
              && t[..|lead|] == lead && t[|lead|] == ' '
              && forall i :: |lead| < i < |t| ==> t[i] == if (i - |lead|) % 2 == 1 then '_' else ' '
    ensures c.mode != Selection && c.mode != Typing ==> r.None?
  {
    if c.mode == Selection then Some(c.word)
    else if c.mode == Typing then
      var lead := Lead(c);
      var blanks := Blanks(Remaining(c));
      var t := lead + " " + blanks;
      assert forall i :: |lead| < i < |t| ==> t[i] == blanks[i - |lead| - 1];
      Some(t)
    else None
  }

  /** The hint for a fully typed word is the typed text and a space, with no blanks left. */
  lemma FullyTypedHasNoBlanks(c: Card)
    requires c.mode == Typing && c.typedText != [] && |c.typedText| >= |c.word|
    ensures DisplayText(c) == Some(c.typedText + " ")
  {
    assert Blanks(Remaining(c)) == "";
    assert Lead(c) + " " + "" == c.typedText + " ";
  }

  /**
   * The answer rule of `on_answer`: in selection mode the chosen meaning must be the card's
   * meaning exactly; in typing mode the typed text must equal the word once both are
   * lower-cased and stripped; in any other mode nothing is correct.
   */
  predicate IsCorrect(c: Card, answer: string)
  {
    if c.mode == Selection then answer == c.meaning
    else if c.mode == Typing then Normalize(answer) == Normalize(c.word)
    else false
  }

  /** What `on_answer` does with an answer. */
  datatype Verdict = Ignored | Right | Wrong

  /**
   * `on_answer(value)`: ignored unless the battle is in play and the active index points
   * into the hand; otherwise the active card's answer rule decides.
   */
  function OnAnswer(playing: bool, hand: seq<Card>, index: nat, answer: string): (v: Verdict)
    ensures v == Ignored <==> !playing || index >= |hand|
    ensures v == Right <==> playing && index < |hand| && IsCorrect(hand[index], answer)
  {
    if !playing || index >= |hand| then Ignored
    else if IsCorrect(hand[index], answer) then Right
    else Wrong
  }

  /** A typed answer is judged without regard to case or surrounding white space. */
  lemma TypingIgnoresCaseAndSpaces(c: Card, a: string, b: string)
    requires c.mode == Typing && Normalize(a) == Normalize(b)
    ensures IsCorrect(c, a) <==> IsCorrect(c, b)
  {
  }

  /** Typing the word in capitals counts as correct. */
  lemma ShoutedWordIsCorrect(c: Card)
    requires c.mode == Typing
    ensures IsCorrect(c, Upper(c.word))
  {
    LowerOfUpper(c.word);
  }

  /** A selection answer is not forgiving: a meaning that differs in any way is wrong. */
  lemma SelectionIsExact(c: Card, answer: string)
    requires c.mode == Selection && answer != c.meaning
    ensures !IsCorrect(c, answer)
  {
  }
}
