/**
 * The string handling the game relies on: Python's `str.strip()`, `str.lower()` and
 * `str.upper()`, the cache key a spoken word is stored under, and the file a key's
 * voice clip is saved to.
 */
module Text {

  /** The characters Python's `str.isspace()` accepts, which `str.strip()` removes. */
  predicate IsSpace(c: char)
  {
    || ('\t' <= c <= '\r')                 // tab, line feed, vertical tab, form feed, carriage return
    || ('\U{1C}' <= c <= '\U{1F}')         // file, group, record and unit separators
    || c == ' '
    || c == '\U{85}' || c == '\U{A0}' || c == '\U{1680}'
    || ('\U{2000}' <= c <= '\U{200A}')
    || c == '\U{2028}' || c == '\U{2029}' || c == '\U{202F}' || c == '\U{205F}' || c == '\U{3000}'
  }

  predicate IsUpper(c: char) { 'A' <= c <= 'Z' }
  predicate IsLower(c: char) { 'a' <= c <= 'z' }

  function LowerChar(c: char): char
  {
    if IsUpper(c) then (c as int + 32) as char else c
  }

  function UpperChar(c: char): char
  {
    if IsLower(c) then (c as int - 32) as char else c
  }

  /** `s.lower()` */
  function Lower(s: string): string
  {
    seq(|s|, i requires 0 <= i < |s| => LowerChar(s[i]))
  }

  /** `s.upper()` */
  function Upper(s: string): string
  {
    seq(|s|, i requires 0 <= i < |s| => UpperChar(s[i]))
  }

  function TrimStart(s: string): string
  {
    if s != [] && IsSpace(s[0]) then TrimStart(s[1..]) else s
  }

  function TrimEnd(s: string): string
  {
    if s != [] && IsSpace(s[|s| - 1]) then TrimEnd(s[..|s| - 1]) else s
  }

  /** `s.strip()`: drop white space from both ends; the result neither starts nor ends with any. */
  function Strip(s: string): (r: string)
    ensures r == [] || (!IsSpace(r[0]) && !IsSpace(r[|r| - 1]))
  {
    var t := TrimStart(s);
    TrimStartFacts(s);
    TrimEndFacts(t);
    assert TrimEnd(t) != [] ==> TrimEnd(t)[0] == t[0];
    TrimEnd(t)
  }

  /** `TrimStart` removes a run of white space from the front and nothing else. */
  lemma {:induction false} TrimStartFacts(s: string)
    ensures var r := TrimStart(s);
            && |r| <= |s| && r == s[|s| - |r|..]
            && (r == [] || !IsSpace(r[0]))
            && forall i :: 0 <= i < |s| - |r| ==> IsSpace(s[i])
  {
    if s != [] && IsSpace(s[0]) {
      var t := s[1..];
      TrimStartFacts(t);
      var r := TrimStart(t);
      assert r == t[|t| - |r|..] == s[|s| - |r|..];
      forall i | 0 <= i < |s| - |r| ensures IsSpace(s[i]) {
        if i > 0 { assert s[i] == t[i - 1]; }
      }
    }
  }

  /** `TrimEnd` removes a run of white space from the back and nothing else. */
  lemma {:induction false} TrimEndFacts(s: string)
    ensures var r := TrimEnd(s);
            && |r| <= |s| && r == s[..|r|]
            && (r == [] || !IsSpace(r[|r| - 1]))
            && forall i :: |r| <= i < |s| ==> IsSpace(s[i])
  {
    if s != [] && IsSpace(s[|s| - 1]) {
      var t := s[..|s| - 1];
      TrimEndFacts(t);
      var r := TrimEnd(t);
      assert r == t[..|r|] == s[..|r|];
      forall i | |r| <= i < |s| ensures IsSpace(s[i]) {
        if i < |s| - 1 { assert s[i] == t[i]; }
      }
    }
  }

  /**
   * What `strip()` keeps is an infix of its input, so it contains only characters of the
   * input, and it is empty exactly when the input is all white space.
   */
  lemma StripFacts(s: string)
    ensures forall c :: c in Strip(s) ==> c in s
    ensures |Strip(s)| <= |s|
    ensures (forall i :: 0 <= i < |s| ==> IsSpace(s[i])) <==> Strip(s) == []
  {
    var t := TrimStart(s);
    var r := TrimEnd(t);
    TrimStartFacts(s);
    TrimEndFacts(t);
    assert forall c :: c in r ==> c in t;
    assert forall c :: c in t ==> c in s;
    if r != [] {
      assert r[0] == t[0] && t[0] == s[|s| - |t|];
    }
  }

  /** The cache key of a spoken word: `word.lower().strip()`. */
  function Normalize(s: string): string
  {
    Strip(Lower(s))
  }

  /** A word that is already its own cache key and is not empty. */
  predicate IsKey(w: string)
  {
    w != [] && Normalize(w) == w
  }

  /**
   * The path string that `os.path.join("assets", "voice", f"{word}.mp3")` builds with a '/'
   * separator; the requester and the worker both use it. Paths are compared as strings.
   */
  function VoicePath(word: string): string
  {
    "assets/voice/" + word + ".mp3"
  }

  lemma LowerOfLowercase(s: string)
    requires forall c :: c in s ==> !IsUpper(c)
    ensures Lower(s) == s
  {
    assert forall i :: 0 <= i < |s| ==> s[i] in s;
  }

  lemma StripOfStripped(s: string)
    requires s == [] || (!IsSpace(s[0]) && !IsSpace(s[|s| - 1]))
    ensures Strip(s) == s
  {
  }

  /** Normalizing a key again changes nothing. */
  lemma {:induction false} NormalizeIdempotent(s: string)
    ensures Normalize(Normalize(s)) == Normalize(s)
  {
    var k := Normalize(s);
    StripFacts(Lower(s));
    assert forall c :: c in Lower(s) ==> !IsUpper(c) by {
      forall c | c in Lower(s) ensures !IsUpper(c) {
        var i :| 0 <= i < |Lower(s)| && Lower(s)[i] == c;
      }
    }
    LowerOfLowercase(k);
    StripOfStripped(k);
  }

  /** Every non-empty normalized word is a key. */
  lemma NormalizeGivesKey(s: string)
    requires Normalize(s) != []
    ensures IsKey(Normalize(s))
  {
    NormalizeIdempotent(s);
  }

  lemma LowerCat()
    ensures Lower("Cat") == "cat" && Lower(" cat ") == " cat "
  {
    var lc, ls := Lower("Cat"), Lower(" cat ");
    assert lc[0] == 'c' && lc[1] == 'a' && lc[2] == 't';
    assert ls[0] == ' ' && ls[1] == 'c' && ls[2] == 'a' && ls[3] == 't' && ls[4] == ' ';
  }

  lemma StripCat()
    ensures Strip("cat") == "cat" && Strip(" cat ") == "cat"
  {
    assert " cat "[1..] == "cat ";
    assert "cat "[..3] == "cat";
    assert !IsSpace('c') && !IsSpace('t');
  }

  /** "Cat" and " cat " share one cache key, hence one file. */
  lemma CatCollides()
    ensures Normalize("Cat") == Normalize(" cat ") == "cat"
    ensures VoicePath(Normalize("Cat")) == VoicePath(Normalize(" cat ")) == "assets/voice/cat.mp3"
  {
    LowerCat();
    StripCat();
  }

  /** Different keys give different path strings. */
  lemma VoicePathInjective(a: string, b: string)
    requires VoicePath(a) == VoicePath(b)
    ensures a == b
  {
    var pa, pb := VoicePath(a), VoicePath(b);
    assert |a| == |b|;
    assert a == pa[13..13 + |a|];
    assert b == pb[13..13 + |b|];
  }

  /** Upper-casing a word does not change its lower-case form. */
  lemma LowerOfUpper(s: string)
    ensures Lower(Upper(s)) == Lower(s)
  {
  }
}
