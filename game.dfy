/**
 * The run of stages: the rank points a won battle earns, when the bonus screen comes up,
 * and the game object's transitions between battle, result and bonus screens.
 */
module Game {
  import opened Wrappers
  import Combat
  import Save
  import Deck

  /** Points for winning any battle. */
  const BattleWinPoints: int := 50

  /** Points for clearing `stage`: 100 plus 10 per stage. */
  function StageClearPoints(stage: int): int
  {
    100 + stage * 10
  }

  /** `_on_battle_end()`: the rank points a battle won at `stage` is worth. */
  function Reward(stage: int): int
  {
    BattleWinPoints + StageClearPoints(stage)
  }

  /** Every later stage pays exactly ten points more, and the first pays 160. */
  lemma RewardGrows(stage: int)
    ensures Reward(stage + 1) == Reward(stage) + 10
    ensures Reward(1) == 160
    ensures stage >= 1 ==> Reward(stage) >= 160
  {
  }

  /** The points earned by winning stages 1 to `n` in a row. */
  function RunPoints(n: nat): int
  {
    if n == 0 then 0 else RunPoints(n - 1) + Reward(n)
  }

  /** Clearing the first `n` stages earns 150 points per stage plus ten times 1 + 2 + ... + n. */
  lemma {:induction false} RunPointsClosedForm(n: nat)
    ensures RunPoints(n) == 150 * n + 5 * n * (n + 1)
  {
    if n > 0 {
      RunPointsClosedForm(n - 1);
    }
  }

  /**
   * `_on_next_stage()` after incrementing: the bonus screen comes up when the new stage
   * number minus one is even and the new stage is past the first.
   */
  predicate BonusFollows(stage: int)
  {
    (stage - 1) % 2 == 0 && stage > 1
  }

  /**
   * The bonus screen comes up before stages 3, 5, 7, ..., that is after every second stage
   * cleared, and before no even stage.
   */
  lemma BonusOnOddStages(stage: int)
    ensures BonusFollows(stage) <==> stage >= 3 && stage % 2 == 1
    ensures BonusFollows(stage) ==> !BonusFollows(stage + 1) && BonusFollows(stage + 2)
  {
  }

  /** The bonus screen comes up after clearing stage 2 and stage 4, not after stage 3. */
  lemma BonusEverySecondStage()
    ensures BonusFollows(3) && !BonusFollows(4) && BonusFollows(5)
  {
  }

  /** How many bonus screens a run sees while advancing to each of stages 2 to `n`. */
  function BonusesUpTo(n: nat): nat
  {
    if n <= 1 then 0 else BonusesUpTo(n - 1) + if BonusFollows(n) then 1 else 0
  }

  /** Reaching stage `n` has shown the bonus screen (n - 1) / 2 times. */
  lemma {:induction false} BonusCount(n: nat)
    ensures n >= 1 ==> BonusesUpTo(n) == (n - 1) / 2
  {
    if n > 1 {
      BonusCount(n - 1);
      BonusOnOddStages(n);
    }
  }

  /** The game's `state` string. */
  datatype Screen = Title | Battle | Result | BonusSelect | GameOver | WordList | Shop | Settings

  /** The parts of the game object that the stage transitions touch. */
  class Game {
    var stage: int
    var screen: Screen
    var player: Combat.Player
    var lastMastered: seq<Deck.Ref>
    var lastNewCards: seq<Deck.Ref>
    const save: Save.SaveManager
    const deck: Deck.DeckManager

    ghost predicate Valid()
      reads this, deck, save
    {
      stage >= 1 && deck.Valid() && Save.Valid(save.data)
    }

    /** The end of `Game()`: stage 1, the title screen, a player with the bought upgrades. */
    constructor (save: Save.SaveManager, deck: Deck.DeckManager)
      requires deck.Valid() && Save.Valid(save.data)
      ensures Valid() && stage == 1 && screen == Title
      ensures this.save == save && this.deck == deck
      ensures player.Valid() && player.Stats() == Combat.Start(Some(Save.PermanentStatsOf(save.data)))
      ensures lastMastered == [] && lastNewCards == []
    {
      this.save := save;
      this.deck := deck;
      stage := 1;
      var perm := save.GetPermanentStats();
      player := new Combat.Player(Some(perm));
      screen := Title;
      lastMastered := [];
      lastNewCards := [];
    }

    /** `_on_start_game()`: back to stage 1 with a fresh player, then `_start_battle()`. */
    method OnStartGame()
      requires Valid()
      modifies this
      ensures Valid() && stage == 1 && screen == Battle
      ensures fresh(player) && player.Valid() && player.Stats() == Combat.Start(Some(Save.PermanentStatsOf(save.data)))
      ensures lastMastered == old(lastMastered) && lastNewCards == old(lastNewCards)
    {
      stage := 1;
      var perm := save.GetPermanentStats();
      player := new Combat.Player(Some(perm));
      screen := Battle;
    }

    /**
     * `_on_battle_end()`: the save gains `Reward(stage)` rank points, the deck graduates its
     * mastered cards, and the result screen shows what graduated and what joined.
     */
    method OnBattleEnd()
      requires Valid()
      modifies this, save, deck
      ensures Valid() && stage == old(stage) && screen == Result && player == old(player)
      ensures save.data == old(save.data).(rankPoints := old(save.data).rankPoints + Reward(stage))
      ensures save.stored == Some(save.data)
      ensures deck.State() == Deck.Graduate(old(deck.State())).after
      ensures lastMastered == Deck.Graduate(old(deck.State())).graduated
      ensures lastNewCards == Deck.Graduate(old(deck.State())).joined
    {
      ghost var before := save.data;
      var points := Reward(stage);
      save.AddRankPoints(points);
      Save.ProgressKeepsValid(before, 0, points, Save.Hp, 0);
      var mastered, newCards := deck.ProcessMastery();
      lastMastered := mastered;
      lastNewCards := newCards;
      screen := Result;
    }

    /** `_on_next_stage()`: one stage further, through the bonus screen every second stage. */
    method OnNextStage()
      requires Valid()
      modifies this
      ensures Valid() && stage == old(stage) + 1
      ensures screen == if BonusFollows(stage) then BonusSelect else Battle
      ensures player == old(player) && lastMastered == old(lastMastered) && lastNewCards == old(lastNewCards)
    {
      stage := stage + 1;
      if (stage - 1) % 2 == 0 && stage > 1 {
        screen := BonusSelect;
      } else {
        screen := Battle;
      }
    }

    /** `_on_bonus_selected()`: the bonus is applied by the bonus screen; the next battle starts. */
    method OnBonusSelected()
      modifies this
      ensures screen == Battle && stage == old(stage) && player == old(player)
    {
      screen := Battle;
    }

    /** `_on_game_over()`: the stage reached stays on record for the game-over screen. */
    method OnGameOver()
      modifies this
      ensures screen == GameOver && stage == old(stage) && player == old(player)
    {
      screen := GameOver;
    }
  }
}
