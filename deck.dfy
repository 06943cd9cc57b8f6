/**
 * The deck manager: the active deck in rotation, the pool of unused cards, the pool of
 * graduated cards, the hand on the table and the discard pile.
 */
module Deck {
  import opened Wrappers
  import opened Cards
  import Save

  const HandSize: int := 5
  const ActiveDeckSize: int := 10
  const MasteryThreshold: int := 3
  /** A word answered correctly more often than this is in the hall of fame. */
  const HallOfFame: int := 10
  /** Below this many eligible words, hall-of-fame words are sampled in to make up the numbers. */
  const MinCards: int := ActiveDeckSize + HandSize

  /** The identity of a card object; piles hold references, so a card changed in one pile is changed in all. */
  type Ref = nat

  /** A snapshot of the deck manager's fields. */
  datatype Piles = Piles(
    cards: map<Ref, Card>,
    active: seq<Ref>, pool: seq<Ref>, mastered: seq<Ref>,
    hand: seq<Ref>, discard: seq<Ref>)

  predicate Known(cards: map<Ref, Card>, s: seq<Ref>)
  {
    forall r :: r in s ==> r in cards
  }

  /**
   * Every pile refers to existing cards; each card is in exactly one of the active deck, the
   * pool and the graduated pool; hand and discard pile hold no card twice and share none.
   */
  predicate Sound(p: Piles)
  {
    && Known(p.cards, p.active) && Known(p.cards, p.pool) && Known(p.cards, p.mastered)
    && Known(p.cards, p.hand) && Known(p.cards, p.discard)
    && NoDup(p.active + p.pool + p.mastered)
    && NoDup(p.hand) && NoDup(p.discard)
    && (forall r :: r in p.hand ==> r !in p.discard)
  }

  lemma NoDupParts(a: seq<Ref>, b: seq<Ref>, c: seq<Ref>)
    requires NoDup(a + b + c)
    ensures NoDup(a) && NoDup(b) && NoDup(c)
  {
    var s := a + b + c;
    forall i, j | 0 <= i < j < |a| ensures At(a, i) != At(a, j) {
      NoDupDistinct(s, i, j);
    }
    forall i, j | 0 <= i < j < |b| ensures At(b, i) != At(b, j) {
      NoDupDistinct(s, |a| + i, |a| + j);
    }
    forall i, j | 0 <= i < j < |c| ensures At(c, i) != At(c, j) {
      NoDupDistinct(s, |a| + |b| + i, |a| + |b| + j);
    }
  }

  /** `[c for c in s if c not in ex]`. */
  function Without(s: seq<Ref>, ex: seq<Ref>): (r: seq<Ref>)
    ensures forall x :: x in r <==> x in s && x !in ex
    decreases |s|
  {
    if s == [] then []
    else
      assert s == [s[0]] + s[1..];
      (if s[0] in ex then [] else [s[0]]) + Without(s[1..], ex)
  }

  /** Every card of `refs`, in turn, loses its right/wrong mark. */
  function ClearVerdicts(cards: map<Ref, Card>, refs: seq<Ref>): (c: map<Ref, Card>)
    ensures c.Keys == cards.Keys
    decreases |refs|
  {
    if refs == [] then cards
    else
      var c := ClearVerdicts(cards, refs[..|refs| - 1]);
      var r := refs[|refs| - 1];
      if r in c then c[r := c[r].(isCorrect := None)] else c
  }

  /** Every card of `refs`, in turn, becomes a typing card with its mastery count reset. */
  function Promote(cards: map<Ref, Card>, refs: seq<Ref>): (c: map<Ref, Card>)
    ensures c.Keys == cards.Keys
    decreases |refs|
  {
    if refs == [] then cards
    else
      var c := Promote(cards, refs[..|refs| - 1]);
      var r := refs[|refs| - 1];
      if r in c then c[r := c[r].(mode := Typing, mastery := 0)] else c
  }

  /** The cards named are marked cleared; the others are untouched. */
  lemma {:induction false} ClearVerdictsFacts(cards: map<Ref, Card>, refs: seq<Ref>, r: Ref)
    requires r in cards
    ensures r in refs ==> ClearVerdicts(cards, refs)[r] == cards[r].(isCorrect := None)
    ensures r !in refs ==> ClearVerdicts(cards, refs)[r] == cards[r]
    decreases |refs|
  {
    if refs != [] {
      var init := refs[..|refs| - 1];
      assert refs == init + [refs[|refs| - 1]];
      ClearVerdictsFacts(cards, init, r);
    }
  }

  /** The cards named are typing cards with mastery 0; the others are untouched. */
  lemma {:induction false} PromoteFacts(cards: map<Ref, Card>, refs: seq<Ref>, r: Ref)
    requires r in cards
    ensures r in refs ==> Promote(cards, refs)[r] == cards[r].(mode := Typing, mastery := 0)
    ensures r !in refs ==> Promote(cards, refs)[r] == cards[r]
    decreases |refs|
  {
    if refs != [] {
      var init := refs[..|refs| - 1];
      assert refs == init + [refs[|refs| - 1]];
      PromoteFacts(cards, init, r);
    }
  }

  /** The cards among the first `n` of `s` that reached the mastery threshold, in deck order. */
  function Graduates(cards: map<Ref, Card>, s: seq<Ref>, n: nat): seq<Ref>
    requires Known(cards, s) && n <= |s|
  {
    if n == 0 then []
    else Graduates(cards, s, n - 1) + if cards[s[n - 1]].mastery >= MasteryThreshold then [s[n - 1]] else []
  }

  /** The cards among the first `n` of `s` below the mastery threshold, in deck order. */
  function Stays(cards: map<Ref, Card>, s: seq<Ref>, n: nat): seq<Ref>
    requires Known(cards, s) && n <= |s|
  {
    if n == 0 then []
    else Stays(cards, s, n - 1) + if cards[s[n - 1]].mastery < MasteryThreshold then [s[n - 1]] else []
  }

  /** Splitting a deck into graduates and stayers loses and duplicates nothing. */
  lemma {:induction false} SplitIsPartition(cards: map<Ref, Card>, s: seq<Ref>, n: nat)
    requires Known(cards, s) && n <= |s|
    ensures multiset(Stays(cards, s, n)) + multiset(Graduates(cards, s, n)) == multiset(s[..n])
  {
    if n != 0 {
      SplitIsPartition(cards, s, n - 1);
      TakeOneMore(s, n);
      var x := s[n - 1];
      if cards[x].mastery >= MasteryThreshold {
        AddToOneSide(multiset(Graduates(cards, s, n - 1)), multiset(Stays(cards, s, n - 1)), multiset(s[..n - 1]), x);
      } else {
        AddToOneSide(multiset(Stays(cards, s, n - 1)), multiset(Graduates(cards, s, n - 1)), multiset(s[..n - 1]), x);
      }
    }
  }

  lemma TakeOneMore(s: seq<Ref>, n: nat)
    requires 0 < n <= |s|
    ensures multiset(s[..n]) == multiset(s[..n - 1]) + multiset{s[n - 1]}
  {
    assert s[..n] == s[..n - 1] + [s[n - 1]];
  }

  lemma AddToOneSide(a: multiset<Ref>, b: multiset<Ref>, all: multiset<Ref>, x: Ref)
    requires b + a == all || a + b == all
    ensures (a + multiset{x}) + b == all + multiset{x} && b + (a + multiset{x}) == all + multiset{x}
  {
  }

  /** Every card either graduates or stays. */
  lemma {:induction false} SplitLength(cards: map<Ref, Card>, s: seq<Ref>, n: nat)
    requires Known(cards, s) && n <= |s|
    ensures |Stays(cards, s, n)| + |Graduates(cards, s, n)| == n
  {
    if n != 0 {
      SplitLength(cards, s, n - 1);
    }
  }

  /** A card graduates exactly when it reached the threshold, and stays exactly when it did not. */
  lemma {:induction false} SplitMembers(cards: map<Ref, Card>, s: seq<Ref>, n: nat)
    requires Known(cards, s) && n <= |s|
    ensures forall r :: r in Graduates(cards, s, n) <==> r in s[..n] && cards[r].mastery >= MasteryThreshold
    ensures forall r :: r in Stays(cards, s, n) <==> r in s[..n] && cards[r].mastery < MasteryThreshold
  {
    if n != 0 {
      assert s[..n] == s[..n - 1] + [s[n - 1]];
      SplitMembers(cards, s, n - 1);
    }
  }

  /** How many cards a refill takes: enough to bring `have` up to a full active deck, if there are that many. */
  function Room(have: int, avail: nat): (k: nat)
    ensures k <= avail
    ensures have + k <= ActiveDeckSize || k == 0
    ensures k == avail || have + k >= ActiveDeckSize
  {
    var want := if have < ActiveDeckSize then ActiveDeckSize - have else 0;
    if want < avail then want else avail
  }

  /** The piles after `process_mastery`, the graduated cards, and the cards that joined the active deck. */
  datatype Graduation = Graduation(after: Piles, graduated: seq<Ref>, joined: seq<Ref>)

  /**
   * `process_mastery()`: cards of the active deck at the mastery threshold leave it, become
   * typing cards with mastery 0 and go to the back of the graduated pool; the active deck is
   * then refilled to 10 from the front of the card pool and, once that is empty, from the
   * front of the graduated pool.
   */
  function Graduate(p: Piles): Graduation
    requires Known(p.cards, p.active)
  {
    var g := Graduates(p.cards, p.active, |p.active|);
    var stay := Stays(p.cards, p.active, |p.active|);
    var k1 := Room(|stay|, |p.pool|);
    var recycled := p.mastered + g;
    var k2 := Room(|stay| + k1, |recycled|);
    Graduation(
      p.(cards := Promote(p.cards, g),
         active := stay + p.pool[..k1] + recycled[..k2],
         pool := p.pool[k1..],
         mastered := recycled[k2..]),
      g, p.pool[..k1] + recycled[..k2])
  }

  /** Moving the fronts of two queues onto the back of a list rearranges but keeps every element. */
  lemma RefillRearranges(stay: seq<Ref>, pool: seq<Ref>, recycled: seq<Ref>, k1: nat, k2: nat)
    requires k1 <= |pool| && k2 <= |recycled|
    ensures multiset(stay + pool[..k1] + recycled[..k2] + pool[k1..] + recycled[k2..])
            == multiset(stay) + multiset(pool) + multiset(recycled)
  {
    assert pool == pool[..k1] + pool[k1..];
    assert recycled == recycled[..k2] + recycled[k2..];
  }

  /** No card is lost or duplicated by graduation. */
  lemma GraduationConservesCards(p: Piles)
    requires Known(p.cards, p.active)
    ensures var q := Graduate(p).after;
            multiset(q.active + q.pool + q.mastered) == multiset(p.active + p.pool + p.mastered)
  {
    var g := Graduates(p.cards, p.active, |p.active|);
    var stay := Stays(p.cards, p.active, |p.active|);
    var k1 := Room(|stay|, |p.pool|);
    var recycled := p.mastered + g;
    var k2 := Room(|stay| + k1, |recycled|);
    SplitIsPartition(p.cards, p.active, |p.active|);
    assert p.active[..|p.active|] == p.active;
    RefillRearranges(stay, p.pool, recycled, k1, k2);
    GraduateUnfolds(p, g, stay, k1, k2);
  }

  /** Graduation keeps the piles sound, and leaves the hand and the discard pile alone. */
  lemma GraduationKeepsSound(p: Piles)
    requires Sound(p)
    ensures Sound(Graduate(p).after)
    ensures Graduate(p).after.hand == p.hand && Graduate(p).after.discard == p.discard
  {
    var q := Graduate(p).after;
    var before := p.active + p.pool + p.mastered;
    var after := q.active + q.pool + q.mastered;
    GraduationConservesCards(p);
    PermutationKeepsNoDup(before, after);
    forall r | r in after ensures r in p.cards {
      assert r in multiset(after);
      assert r in multiset(before);
    }
    assert q.cards.Keys == p.cards.Keys;
  }

  /**
   * Graduation keeps the active deck full whenever there are enough cards: it ends with ten
   * cards, or with every remaining card. The stayers keep their order at the front.
   */
  lemma GraduationFillsDeck(p: Piles)
    requires Known(p.cards, p.active) && |p.active| <= ActiveDeckSize
    ensures var q := Graduate(p).after;
            var total := |p.active| + |p.pool| + |p.mastered|;
            && |q.active| == (if total < ActiveDeckSize then total else ActiveDeckSize)
            && q.active[..|Stays(p.cards, p.active, |p.active|)|] == Stays(p.cards, p.active, |p.active|)
  {
    SplitLength(p.cards, p.active, |p.active|);
  }

  /**
   * The unused card pool is drawn from first: a graduated card rejoins the active deck only
   * once the pool is empty. Graduates are exactly the active cards at the threshold, and
   * they come back as typing cards with mastery 0; no other card changes.
   */
  lemma GraduationRules(p: Piles)
    requires Known(p.cards, p.active)
    ensures var gr := Graduate(p);
            && (|gr.joined| > Room(|Stays(p.cards, p.active, |p.active|)|, |p.pool|) ==> gr.after.pool == [])
            && (forall r :: r in gr.graduated <==> r in p.active && p.cards[r].mastery >= MasteryThreshold)
            && (forall r :: r in p.cards && r in gr.graduated ==>
                  gr.after.cards[r] == p.cards[r].(mode := Typing, mastery := 0))
            && (forall r :: r in p.cards && r !in gr.graduated ==> gr.after.cards[r] == p.cards[r])
  {
    var g := Graduates(p.cards, p.active, |p.active|);
    SplitMembers(p.cards, p.active, |p.active|);
    assert p.active[..|p.active|] == p.active;
    forall r | r in p.cards
      ensures r in g ==> Promote(p.cards, g)[r] == p.cards[r].(mode := Typing, mastery := 0)
      ensures r !in g ==> Promote(p.cards, g)[r] == p.cards[r]
    {
      PromoteFacts(p.cards, g, r);
    }
  }

  /** With both pools empty, graduation puts the graduates straight back behind the stayers. */
  lemma GraduateWithEmptyPools(p: Piles)
    requires Known(p.cards, p.active) && |p.active| <= ActiveDeckSize && p.pool == [] && p.mastered == []
    ensures var g := Graduates(p.cards, p.active, |p.active|);
            && Graduate(p).after.active == Stays(p.cards, p.active, |p.active|) + g
            && Graduate(p).after.cards == Promote(p.cards, g)
  {
    var g := Graduates(p.cards, p.active, |p.active|);
    var stay := Stays(p.cards, p.active, |p.active|);
    SplitLength(p.cards, p.active, |p.active|);
    assert Room(|stay|, |p.pool|) == 0;
    assert Room(|stay|, |p.mastered + g|) == |g|;
    assert (p.mastered + g)[..|g|] == g && p.pool[..0] == [];
  }

  /**
   * With nothing left to draw on, a card that graduates rejoins the active deck at once, now
   * as a typing card.
   */
  lemma GraduateComesBackAsTyping(p: Piles, r: Ref)
    requires Known(p.cards, p.active) && |p.active| == ActiveDeckSize && p.pool == [] && p.mastered == []
    requires r in p.active && p.cards[r].mastery >= MasteryThreshold
    ensures var q := Graduate(p).after;
            r in q.active && q.cards[r].mode == Typing && q.cards[r].mastery == 0
  {
    var g := Graduates(p.cards, p.active, |p.active|);
    GraduateWithEmptyPools(p);
    SplitMembers(p.cards, p.active, |p.active|);
    assert p.active[..|p.active|] == p.active;
    assert r in g;
    PromoteFacts(p.cards, g, r);
  }

  /** The next card of the graduation scan is on neither side yet. */
  lemma ScanStep(cards: map<Ref, Card>, s: seq<Ref>, i: nat)
    requires Known(cards, s) && NoDup(s) && i < |s|
    ensures s[i] in cards
    ensures s[i] !in Graduates(cards, s, i) && s[i] !in Stays(cards, s, i)
  {
    SplitMembers(cards, s, i);
    NoDupNotBefore(s, i);
  }

  lemma SplitOff(a: seq<Ref>, s: seq<Ref>, i: nat)
    requires i < |s|
    ensures a + s[i..] == a + [s[i]] + s[i + 1..]
  {
    assert s[i..] == [s[i]] + s[i + 1..];
  }

  /** Promoting one more card is a single map update. */
  lemma PromoteStep(cards: map<Ref, Card>, g: seq<Ref>, r: Ref)
    requires r in cards && r !in g
    ensures Promote(cards, g)[r] == cards[r]
    ensures Promote(cards, g + [r]) == Promote(cards, g)[r := cards[r].(mode := Typing, mastery := 0)]
  {
    PromoteFacts(cards, g, r);
    assert (g + [r])[..|g|] == g;
  }

  /** A card below the threshold stays where it is in the scanned deck. */
  lemma ScanKeeps(cards: map<Ref, Card>, s: seq<Ref>, i: nat)
    requires Known(cards, s) && i < |s| && cards[s[i]].mastery < MasteryThreshold
    ensures Stays(cards, s, i) + s[i..] == Stays(cards, s, i + 1) + s[i + 1..]
    ensures Graduates(cards, s, i) == Graduates(cards, s, i + 1)
  {
    SplitOff(Stays(cards, s, i), s, i);
  }

  /** Removing the next card of a scan that has not met it yet leaves what was before and after it. */
  lemma RemoveNext(stay: seq<Ref>, s: seq<Ref>, i: nat)
    requires i < |s| && s[i] !in stay
    ensures s[i] in stay + s[i..]
    ensures RemoveFirst(stay + s[i..], s[i]) == stay + s[i + 1..]
  {
    SplitOff(stay, s, i);
    RemoveFirstAt(stay, s[i], s[i + 1..]);
  }

  /** A card at the threshold is removed from the scanned deck and joins the graduates. */
  lemma ScanGraduates(cards: map<Ref, Card>, s: seq<Ref>, i: nat)
    requires Known(cards, s) && i < |s| && cards[s[i]].mastery >= MasteryThreshold
    requires s[i] !in Stays(cards, s, i)
    ensures s[i] in Stays(cards, s, i) + s[i..]
    ensures RemoveFirst(Stays(cards, s, i) + s[i..], s[i]) == Stays(cards, s, i + 1) + s[i + 1..]
    ensures Graduates(cards, s, i) + [s[i]] == Graduates(cards, s, i + 1)
  {
    RemoveNext(Stays(cards, s, i), s, i);
  }

  /**
   * One step of the graduation scan: the next card either stays in place or is removed
   * from the deck, promoted, and appended to the graduates.
   */
  lemma ScanAdvances(cards: map<Ref, Card>, s: seq<Ref>, i: nat, deck: seq<Ref>, g: seq<Ref>, promoted: map<Ref, Card>)
    requires Known(cards, s) && NoDup(s) && i < |s|
    requires deck == Stays(cards, s, i) + s[i..] && g == Graduates(cards, s, i) && promoted == Promote(cards, g)
    ensures s[i] in promoted && promoted[s[i]] == cards[s[i]]
    ensures cards[s[i]].mastery >= MasteryThreshold ==>
              && s[i] in deck
              && RemoveFirst(deck, s[i]) == Stays(cards, s, i + 1) + s[i + 1..]
              && g + [s[i]] == Graduates(cards, s, i + 1)
              && promoted[s[i] := promoted[s[i]].(mode := Typing, mastery := 0)] == Promote(cards, g + [s[i]])
    ensures cards[s[i]].mastery < MasteryThreshold ==>
              deck == Stays(cards, s, i + 1) + s[i + 1..] && g == Graduates(cards, s, i + 1)
  {
    ScanStep(cards, s, i);
    PromoteStep(cards, g, s[i]);
    if cards[s[i]].mastery >= MasteryThreshold {
      ScanGraduates(cards, s, i);
    } else {
      ScanKeeps(cards, s, i);
    }
  }

  /** `Graduate` spelled out in terms of its parts. */
  lemma GraduateUnfolds(p: Piles, g: seq<Ref>, stay: seq<Ref>, k1: nat, k2: nat)
    requires Known(p.cards, p.active)
    requires g == Graduates(p.cards, p.active, |p.active|) && stay == Stays(p.cards, p.active, |p.active|)
    requires k1 == Room(|stay|, |p.pool|) && k2 == Room(|stay| + k1, |p.mastered + g|)
    ensures Graduate(p).after == p.(cards := Promote(p.cards, g), active := stay + p.pool[..k1] + (p.mastered + g)[..k2],
                                   pool := p.pool[k1..], mastered := (p.mastered + g)[k2..])
  {
  }

  /** Taking the front of what is left of a queue extends the part already taken. */
  lemma FrontStep(s: seq<Ref>, n: nat)
    requires n < |s|
    ensures s[n..][0] == s[n] && s[n..][1..] == s[n + 1..] && s[..n] + [s[n]] == s[..n + 1]
  {
  }

  /** Appending leaves a prefix alone and extends the matching suffix. */
  lemma AppendSplit(s: seq<Ref>, c: Ref, n: nat)
    requires n <= |s|
    ensures (s + [c])[..n] == s[..n] && (s + [c])[n..] == s[n..] + [c]
  {
  }

  /** Dealing an active card that is neither on the table nor discarded keeps the piles sound. */
  lemma DealKeepsSound(p: Piles, c: Ref)
    requires Sound(p) && c in p.active && c !in p.hand && c !in p.discard
    ensures Sound(p.(hand := p.hand + [c]))
  {
    assert c in p.active + p.pool + p.mastered;
    NoDupConcat(p.hand, [c]);
  }

  /** Emptying the discard pile and re-marking cards keeps the piles sound. */
  lemma RecycleKeepsSound(p: Piles, cards: map<Ref, Card>)
    requires Sound(p) && cards.Keys == p.cards.Keys
    ensures Sound(p.(cards := cards, discard := []))
  {
  }

  /** `for c in discard: c.is_correct = None`: every discarded card loses its right/wrong mark. */
  method ClearMarks(cards: map<Ref, Card>, discard: seq<Ref>) returns (cleared: map<Ref, Card>)
    requires Known(cards, discard)
    ensures cleared == ClearVerdicts(cards, discard)
  {
    cleared := cards;
    var i := 0;
    while i < |discard|
      invariant 0 <= i <= |discard|
      invariant cleared == ClearVerdicts(cards, discard[..i])
    {
      var r := discard[i];
      assert r in discard;
      cleared := cleared[r := cleared[r].(isCorrect := None)];
      assert discard[..i + 1] == discard[..i] + [r];
      i := i + 1;
    }
    assert discard[..i] == discard;
  }

  /**
   * The scan of `process_mastery()` over a copy of the active deck: a card at the threshold
   * is removed from `deck`, promoted, and appended to the graduates and to the graduated pool.
   */
  method Sift(cards: map<Ref, Card>, active: seq<Ref>, mastered: seq<Ref>)
      returns (deck: seq<Ref>, graduated: seq<Ref>, promoted: map<Ref, Card>, pool: seq<Ref>)
    requires Known(cards, active) && NoDup(active)
    ensures deck == Stays(cards, active, |active|)
    ensures graduated == Graduates(cards, active, |active|)
    ensures promoted == Promote(cards, graduated)
    ensures pool == mastered + graduated
  {
    deck := active;
    promoted := cards;
    pool := mastered;
    graduated := [];
    var i := 0;
    while i < |active|
      invariant 0 <= i <= |active|
      invariant deck == Stays(cards, active, i) + active[i..]
      invariant graduated == Graduates(cards, active, i)
      invariant pool == mastered + graduated
      invariant promoted == Promote(cards, graduated)
    {
      var r := active[i];
      ScanAdvances(cards, active, i, deck, graduated, promoted);
      if promoted[r].mastery >= MasteryThreshold {
        graduated := graduated + [r];
        deck := RemoveFirst(deck, r);
        promoted := promoted[r := promoted[r].(mode := Typing, mastery := 0)];
        pool := pool + [r];
      }
      i := i + 1;
    }
    assert active[i..] == [];
  }

  /** The active cards `draw_hand` can deal without a reshuffle: neither on the table nor discarded. */
  ghost function Fresh(p: Piles): set<Ref>
  {
    set r | r in p.active && r !in p.hand && r !in p.discard
  }

  /**
   * Whether `draw_hand(count)` shuffles the discard pile back: it is not empty, and the
   * fresh cards run out before the hand holds `count`.
   */
  ghost predicate Reshuffles(p: Piles, count: int)
  {
    p.discard != [] && |Fresh(p)| < count - |p.hand|
  }

  /**
   * What `draw_hand(count)` may leave behind, for any random choices: the three decks are
   * untouched; the hand keeps its cards and gains only active cards, up to `count`; it
   * falls short only when every active card is already in it, so a deck of at least
   * `count` cards fills it. When `Reshuffles` holds, the discard pile was shuffled back
   * with every discarded card's mark cleared, after every fresh card was dealt; otherwise
   * the discard pile and all marks are untouched and every dealt card was fresh.
   */
  ghost predicate Drawn(p: Piles, q: Piles, count: int)
  {
    && Sound(q)
    && q.active == p.active && q.pool == p.pool && q.mastered == p.mastered
    && |p.hand| <= |q.hand| && q.hand[..|p.hand|] == p.hand
    && (|p.hand| >= count ==> q.hand == p.hand)
    && (|p.hand| < count ==> |q.hand| <= count)
    && (forall r :: r in q.hand[|p.hand|..] ==> r in q.active)
    && (|q.hand| < count ==> forall r :: r in q.active ==> r in q.hand)
    && (|q.active| >= count ==> |q.hand| >= count)
    && if Reshuffles(p, count) then
         && q.discard == []
         && q.cards == ClearVerdicts(p.cards, p.discard)
         && forall r :: r in q.active ==> r in q.hand || r in p.discard
       else
         && q.discard == p.discard && q.cards == p.cards
         && forall r :: r in q.hand[|p.hand|..] ==> r in Fresh(p)
  }

  /** Dealing a fresh card takes exactly that card out of the fresh ones. */
  lemma DealFresh(q: Piles, c: Ref)
    requires c in Fresh(q)
    ensures Fresh(q.(hand := q.hand + [c])) == Fresh(q) - {c}
    ensures |Fresh(q.(hand := q.hand + [c]))| == |Fresh(q)| - 1
  {
    var q' := q.(hand := q.hand + [c]);
    assert Fresh(q') == Fresh(q) - {c};
  }

  /** The list `draw_hand` deals from is empty exactly when no card is fresh. */
  lemma AvailableIsFresh(q: Piles, available: seq<Ref>)
    requires forall x :: x in available <==> x in q.active && x !in q.hand + q.discard
    ensures forall x :: x in available <==> x in Fresh(q)
    ensures available == [] <==> Fresh(q) == {}
  {
    forall x | x in available ensures x in Fresh(q) {
      assert x !in q.hand && x !in q.discard;
    }
    if available != [] {
      assert available[0] in available;
    }
    if Fresh(q) != {} {
      var x :| x in Fresh(q);
      assert x in available;
    }
  }

  /**
   * What holds while `draw_hand(count)` runs: as in `Drawn`, with `reshuffled` saying
   * whether the discard pile has been shuffled back yet. Before that, the fresh cards
   * dealt so far are exactly the ones missing from `Fresh`.
   */
  ghost predicate Dealing(p: Piles, q: Piles, count: int, reshuffled: bool)
  {
    && Sound(q)
    && q.active == p.active && q.pool == p.pool && q.mastered == p.mastered
    && |p.hand| <= |q.hand| && q.hand[..|p.hand|] == p.hand
    && (|p.hand| >= count ==> q.hand == p.hand)
    && (|p.hand| < count ==> |q.hand| <= count)
    && (forall r :: r in q.hand[|p.hand|..] ==> r in q.active)
    && (!reshuffled ==>
          && q.discard == p.discard && q.cards == p.cards
          && |Fresh(q)| + (|q.hand| - |p.hand|) == |Fresh(p)|
          && forall r :: r in q.hand[|p.hand|..] ==> r in Fresh(p))
    && (reshuffled ==>
          && Reshuffles(p, count) && q.discard == []
          && q.cards == ClearVerdicts(p.cards, p.discard)
          && forall r :: r in q.active ==> r in q.hand || r in p.discard)
  }

  /** Dealing an active card that is neither held nor discarded keeps dealing on track. */
  lemma DealStep(p: Piles, q: Piles, count: int, reshuffled: bool, c: Ref)
    requires Dealing(p, q, count, reshuffled) && |q.hand| < count
    requires c in q.active && c !in q.hand && c !in q.discard
    ensures Dealing(p, q.(hand := q.hand + [c]), count, reshuffled)
  {
    var q' := q.(hand := q.hand + [c]);
    DealKeepsSound(q, c);
    AppendSplit(q.hand, c, |p.hand|);
    if !reshuffled {
      assert c in Fresh(q);
      DealFresh(q, c);
      assert c !in p.hand by { assert q.hand[..|p.hand|] == p.hand; }
      assert c in Fresh(p);
    }
  }

  /** Shuffling the discard pile back once no card is fresh starts the second phase of dealing. */
  lemma ReshuffleStep(p: Piles, q: Piles, count: int, cleared: map<Ref, Card>)
    requires Dealing(p, q, count, false) && |q.hand| < count
    requires Fresh(q) == {} && q.discard != []
    requires cleared == ClearVerdicts(q.cards, q.discard)
    ensures Dealing(p, q.(cards := cleared, discard := []), count, true)
  {
    RecycleKeepsSound(q, cleared);
    forall r | r in q.active ensures r in q.hand || r in p.discard {
      assert r !in Fresh(q);
    }
  }

  /** When dealing stops, with the hand full or nothing left to deal, `Drawn` holds. */
  lemma DealDone(p: Piles, q: Piles, count: int, reshuffled: bool)
    requires Dealing(p, q, count, reshuffled)
    requires || |q.hand| >= count
             || (reshuffled && forall r :: r in q.active ==> r in q.hand)
             || (!reshuffled && q.discard == [] && Fresh(q) == {})
    ensures Drawn(p, q, count)
  {
    if |q.hand| < count {
      forall r | r in q.active ensures r in q.hand {
        if !reshuffled { assert r !in Fresh(q); }
      }
      if |q.active| >= count {
        NoDupParts(q.active, q.pool, q.mastered);
        DistinctSubsetLength(q.active, q.hand);
      }
    }
  }

  /**
   * `draw_hand(count)`: deal cards from the active deck that are neither on the table nor
   * in the discard pile until the hand holds `count`; when none is left, shuffle the discard
   * pile back (clearing each discarded card's mark) and deal from all active cards not in
   * hand; stop early if even that leaves nothing. The card dealt is chosen at random.
   */
  method Deal(p: Piles, count: int) returns (q: Piles)
    requires Sound(p)
    ensures Drawn(p, q, count)
  {
    q := p;
    ghost var reshuffled := false;
    while |q.hand| < count
      invariant Dealing(p, q, count, reshuffled)
      decreases count - |q.hand|
    {
      var available := Without(q.active, q.hand + q.discard);
      AvailableIsFresh(q, available);
      if available == [] {
        if q.discard != [] {
          var cleared := ClearMarks(q.cards, q.discard);
          ReshuffleStep(p, q, count, cleared);
          q := q.(cards := cleared, discard := []);
          reshuffled := true;
          available := Without(q.active, q.hand);
        }
        if available == [] {
          DealDone(p, q, count, reshuffled);
          break;
        }
      }
      assert available[0] in available;
      var c :| c in available;
      DealStep(p, q, count, reshuffled, c);
      q := q.(hand := q.hand + [c]);
    }
    if |q.hand| >= count {
      DealDone(p, q, count, reshuffled);
    }
  }

  // ---------------------------------------------------------------------------------------
  // Choosing the words of a run

  /** The words not yet in the hall of fame, in the order given. */
  function Eligible(words: seq<WordEntry>, save: Save.SaveData): seq<WordEntry>
  {
    if words == [] then []
    else
      var w := words[|words| - 1];
      Eligible(words[..|words| - 1], save) + if Save.Mastery(save, w.id) > HallOfFame then [] else [w]
  }

  /** The hall-of-fame words, in the order given. */
  function Famous(words: seq<WordEntry>, save: Save.SaveData): seq<WordEntry>
  {
    if words == [] then []
    else
      var w := words[|words| - 1];
      Famous(words[..|words| - 1], save) + if Save.Mastery(save, w.id) > HallOfFame then [w] else []
  }

  /** A word is eligible exactly when it has been answered correctly at most ten times, and famous otherwise. */
  lemma {:induction false} FameMembers(words: seq<WordEntry>, save: Save.SaveData)
    ensures forall w :: w in Eligible(words, save) <==> w in words && Save.Mastery(save, w.id) <= HallOfFame
    ensures forall w :: w in Famous(words, save) <==> w in words && Save.Mastery(save, w.id) > HallOfFame
  {
    if words != [] {
      var init := words[..|words| - 1];
      assert words == init + [words[|words| - 1]];
      FameMembers(init, save);
    }
  }

  /** Every word is either eligible or famous, and none is lost or repeated. */
  lemma {:induction false} FamePartition(words: seq<WordEntry>, save: Save.SaveData)
    ensures multiset(Eligible(words, save)) + multiset(Famous(words, save)) == multiset(words)
  {
    if words != [] {
      var init := words[..|words| - 1];
      assert words == init + [words[|words| - 1]];
      FamePartition(init, save);
    }
  }

  /** How many hall-of-fame words `random.sample` draws: enough to reach fifteen words, if there are that many. */
  function SampleSize(eligible: nat, famous: nat): (k: nat)
    ensures k <= famous
    ensures eligible >= MinCards ==> k == 0
    ensures eligible < MinCards ==> k == famous || eligible + k == MinCards
  {
    if eligible < MinCards then
      if MinCards - eligible < famous then MinCards - eligible else famous
    else 0
  }

  /** A possible outcome of `random.sample(from, k)`: `k` distinct draws from `from`. */
  predicate IsSample(sample: seq<WordEntry>, from: seq<WordEntry>, k: nat)
  {
    |sample| == k && multiset(sample) <= multiset(from)
  }

  /** The candidate words: the eligible ones, then the sampled hall-of-fame words. */
  function Candidates(words: seq<WordEntry>, save: Save.SaveData, sample: seq<WordEntry>): seq<WordEntry>
  {
    Eligible(words, save) + sample
  }

  /**
   * The candidates as the constructor builds them: the sampled words are added only when
   * there are fewer than fifteen eligible words and some hall-of-fame words to draw from.
   */
  lemma CandidatesAsBuilt(words: seq<WordEntry>, save: Save.SaveData, sample: seq<WordEntry>)
    requires IsSample(sample, Famous(words, save), SampleSize(|Eligible(words, save)|, |Famous(words, save)|))
    ensures Candidates(words, save, sample)
            == if |Eligible(words, save)| < MinCards && Famous(words, save) != [] then Eligible(words, save) + sample
               else Eligible(words, save)
  {
    if !(|Eligible(words, save)| < MinCards && Famous(words, save) != []) {
      assert sample == [];
    }
  }

  /**
   * There are always fifteen candidates when there are fifteen words, and never fewer
   * candidates than eligible words.
   */
  lemma CandidateCount(words: seq<WordEntry>, save: Save.SaveData, sample: seq<WordEntry>)
    requires IsSample(sample, Famous(words, save), SampleSize(|Eligible(words, save)|, |Famous(words, save)|))
    ensures var n := |Candidates(words, save, sample)|; var e := |Eligible(words, save)|;
            && (e >= MinCards ==> n == e)
            && (e < MinCards ==> n == if |words| < MinCards then |words| else MinCards)
  {
    FamePartition(words, save);
    assert |multiset(words)| == |words|;
  }

  /**
   * A hall-of-fame word is only dealt in when fewer than fifteen words are eligible; every
   * candidate is one of the given words.
   */
  lemma FamousOnlyWhenShort(words: seq<WordEntry>, save: Save.SaveData, sample: seq<WordEntry>, w: WordEntry)
    requires IsSample(sample, Famous(words, save), SampleSize(|Eligible(words, save)|, |Famous(words, save)|))
    requires w in Candidates(words, save, sample)
    ensures w in words
    ensures Save.Mastery(save, w.id) > HallOfFame ==> |Eligible(words, save)| < MinCards
  {
    FameMembers(words, save);
    if w !in Eligible(words, save) {
      assert w in multiset(sample);
    }
  }

  /** The filtering loop of `DeckManager()`: split the words by their mastery count in the save. */
  method SplitByFame(words: seq<WordEntry>, save: Save.SaveData) returns (eligible: seq<WordEntry>, famous: seq<WordEntry>)
    ensures eligible == Eligible(words, save) && famous == Famous(words, save)
  {
    eligible, famous := [], [];
    var i := 0;
    while i < |words|
      invariant 0 <= i <= |words|
      invariant eligible == Eligible(words[..i], save) && famous == Famous(words[..i], save)
    {
      var w := words[i];
      assert words[..i + 1][..i] == words[..i];
      if Save.Mastery(save, w.id) > HallOfFame {
        famous := famous + [w];
      } else {
        eligible := eligible + [w];
      }
      i := i + 1;
    }
    assert words[..i] == words;
  }

  /** References `0 .. n - 1`, one per card made. */
  function Ids(n: nat): (s: seq<Ref>)
    ensures |s| == n && forall i :: 0 <= i < n ==> s[i] == i
  {
    seq(n, i => i)
  }

  lemma IdsNoDup(n: nat)
    ensures NoDup(Ids(n))
  {
    forall i, j | 0 <= i < j < n ensures At(Ids(n), i) != At(Ids(n), j) {
    }
  }

  /**
   * The piles `DeckManager()` starts with: one card per candidate, the first ten in the
   * active deck and the rest in the card pool, each pile in the shuffled order.
   */
  function Opening(shuffled: seq<WordEntry>): (p: Piles)
    ensures Sound(p) && p.mastered == [] && p.hand == [] && p.discard == []
    ensures |p.active| == (if |shuffled| < ActiveDeckSize then |shuffled| else ActiveDeckSize)
    ensures |p.active| + |p.pool| == |shuffled|
    ensures forall i :: 0 <= i < |p.active| ==> p.cards[p.active[i]] == NewCard(shuffled[i])
    ensures forall i :: 0 <= i < |p.pool| ==> p.cards[p.pool[i]] == NewCard(shuffled[ActiveDeckSize + i])
  {
    var n := if |shuffled| < ActiveDeckSize then |shuffled| else ActiveDeckSize;
    var all := Ids(|shuffled|);
    var cards := map i: Ref | i < |shuffled| :: NewCard(shuffled[i]);
    OpeningDeal(shuffled, cards, n);
    Piles(cards, all[..n], all[n..], [], [], [])
  }

  /** The facts `Opening` promises, about its parts. */
  lemma OpeningDeal(shuffled: seq<WordEntry>, cards: map<Ref, Card>, n: nat)
    requires cards == map i: Ref | i < |shuffled| :: NewCard(shuffled[i])
    requires n == if |shuffled| < ActiveDeckSize then |shuffled| else ActiveDeckSize
    ensures var all := Ids(|shuffled|);
            && Sound(Piles(cards, all[..n], all[n..], [], [], []))
            && (forall i :: 0 <= i < n ==> cards[all[..n][i]] == NewCard(shuffled[i]))
            && (forall i :: 0 <= i < |shuffled| - n ==> cards[all[n..][i]] == NewCard(shuffled[ActiveDeckSize + i]))
  {
    var all := Ids(|shuffled|);
    var active, pool := all[..n], all[n..];
    forall i | 0 <= i < n ensures active[i] == i && cards[active[i]] == NewCard(shuffled[i]) {
    }
    forall i | 0 <= i < |shuffled| - n ensures pool[i] == n + i && cards[pool[i]] == NewCard(shuffled[n + i]) {
    }
    forall r | r in all ensures r in cards {
      var i :| 0 <= i < |all| && all[i] == r;
    }
    IdsNoDup(|shuffled|);
    OpeningSound(cards, all, n);
  }

  /** A deck of distinct known cards cut in two, with nothing in hand or discarded, is sound. */
  lemma OpeningSound(cards: map<Ref, Card>, all: seq<Ref>, n: nat)
    requires Known(cards, all) && NoDup(all) && n <= |all|
    ensures Sound(Piles(cards, all[..n], all[n..], [], [], []))
  {
    assert all[..n] + all[n..] + [] == all;
  }

  /** One refill loop of `process_mastery()`: move cards from the front of `from` to the back of `deck` until it holds ten. */
  method TopUp(deck: seq<Ref>, from: seq<Ref>) returns (filled: seq<Ref>, rest: seq<Ref>, taken: seq<Ref>)
    ensures var k := Room(|deck|, |from|);
            taken == from[..k] && filled == deck + taken && rest == from[k..]
  {
    filled, rest, taken := deck, from, [];
    while |filled| < ActiveDeckSize && rest != []
      invariant |taken| <= Room(|deck|, |from|)
      invariant taken == from[..|taken|] && rest == from[|taken|..] && filled == deck + taken
      decreases |rest|
    {
      FrontStep(from, |taken|);
      var c := rest[0];
      rest := rest[1..];
      filled := filled + [c];
      taken := taken + [c];
    }
  }

  /** The deck manager's state. */
  class DeckManager {
    var cards: map<Ref, Card>
    var activeDeck: seq<Ref>
    var cardPool: seq<Ref>
    var masteredPool: seq<Ref>
    var hand: seq<Ref>
    var discard: seq<Ref>

    function State(): Piles
      reads this
    {
      Piles(cards, activeDeck, cardPool, masteredPool, hand, discard)
    }

    predicate Valid()
      reads this
    {
      Sound(State())
    }

    /**
     * `DeckManager()`: the words answered correctly more than ten times are set aside,
     * unless fewer than fifteen others remain, in which case `sample` (the outcome of
     * `random.sample`) makes up the numbers; `shuffled` is the order `random.shuffle` puts
     * the candidates' cards in. The first ten form the active deck and the rest the card pool.
     * The filtering loop runs here as in the source, and the list it builds is shown to be
     * `Candidates`, the list `shuffled` is required to be a permutation of; the cards
     * themselves are built from `shuffled`.
     */
    constructor (words: seq<WordEntry>, save: Save.SaveData, sample: seq<WordEntry>, shuffled: seq<WordEntry>)
      requires IsSample(sample, Famous(words, save), SampleSize(|Eligible(words, save)|, |Famous(words, save)|))
      requires multiset(shuffled) == multiset(Candidates(words, save, sample))
      ensures Valid() && hand == [] && discard == [] && masteredPool == []
      ensures |activeDeck| == if |shuffled| < ActiveDeckSize then |shuffled| else ActiveDeckSize
      ensures |activeDeck| + |cardPool| == |shuffled|
      ensures forall i :: 0 <= i < |activeDeck| ==> cards[activeDeck[i]] == NewCard(shuffled[i])
      ensures forall i :: 0 <= i < |cardPool| ==> cards[cardPool[i]] == NewCard(shuffled[ActiveDeckSize + i])
    {
      var eligible, famous := SplitByFame(words, save);
      var candidates := eligible;
      if |candidates| < MinCards {
        if famous != [] {
          candidates := candidates + sample;
        }
      }
      CandidatesAsBuilt(words, save, sample);
      assert candidates == Candidates(words, save, sample);
      var p := Opening(shuffled);
      cards := p.cards;
      activeDeck := p.active;
      cardPool := p.pool;
      masteredPool := [];
      hand := [];
      discard := [];
    }

    /** `draw_hand(count)`, as `Deal` describes it. */
    method DrawHand(count: int)
      requires Valid()
      modifies this
      ensures Valid()
      ensures Drawn(old(State()), State(), count)
    {
      var q := Deal(State(), count);
      cards := q.cards;
      hand := q.hand;
      discard := q.discard;
      assert State() == q;
    }

    /** `return_hand_to_discard()`: the whole hand goes onto the discard pile. */
    method ReturnHandToDiscard()
      requires Valid()
      modifies this
      ensures Valid()
      ensures discard == old(discard) + old(hand) && hand == []
      ensures cards == old(cards) && activeDeck == old(activeDeck) && cardPool == old(cardPool)
      ensures masteredPool == old(masteredPool)
    {
      NoDupConcat(discard, hand);
      discard := discard + hand;
      hand := [];
    }

    /**
     * `reload_hand()`: discard the hand and deal a fresh one of five. With at least five
     * active cards the new hand is full, and every card in it comes from the active deck.
     */
    method ReloadHand()
      requires Valid()
      modifies this
      ensures Valid()
      ensures activeDeck == old(activeDeck) && cardPool == old(cardPool) && masteredPool == old(masteredPool)
      ensures |hand| <= HandSize && forall r :: r in hand ==> r in activeDeck
      ensures |activeDeck| >= HandSize ==> |hand| == HandSize
      ensures |hand| < HandSize ==> forall r :: r in activeDeck ==> r in hand
      ensures (discard == old(discard) + old(hand) && cards == old(cards))
              || (discard == [] && cards == ClearVerdicts(old(cards), old(discard) + old(hand)))
    {
      ReturnHandToDiscard();
      DrawHand(HandSize);
      assert hand == hand[0..];
    }

    /** `process_mastery()`: returns the graduated cards and the cards that joined the active deck. */
    method ProcessMastery() returns (graduated: seq<Ref>, joined: seq<Ref>)
      requires Valid()
      modifies this
      ensures Valid()
      ensures State() == Graduate(old(State())).after
      ensures graduated == Graduate(old(State())).graduated && joined == Graduate(old(State())).joined
    {
      ghost var p := State();
      NoDupParts(activeDeck, cardPool, masteredPool);
      var stay, promoted, recycled;
      stay, graduated, promoted, recycled := Sift(cards, activeDeck, masteredPool);
      var filled, pool, fromPool := TopUp(stay, cardPool);
      var full, rest, fromMastered := TopUp(filled, recycled);
      joined := fromPool + fromMastered;
      assert full == stay + joined;
      cards := promoted;
      activeDeck := full;
      cardPool := pool;
      masteredPool := rest;
      GraduateUnfolds(p, graduated, stay, |fromPool|, |fromMastered|);
      assert State() == Graduate(p).after;
      GraduationKeepsSound(p);
    }
  }
}
