/** The player's and the enemy's hit points, the run's power-ups, and the enemy's turn. */
module Combat {
  import opened Wrappers

  const PlayerBaseHp: int := 100
  const TurnTime: int := 15

  const IronWall: string := "iron_wall"
  const Vitality: string := "vitality"
  const Scholar: string := "scholar"
  const SharpPen: string := "sharp_pen"

  /** The bonuses bought with rank points, as the save file turns them into player stats. */
  datatype PermanentStats = PermanentStats(hp: nat, attack: real, defense: nat)

  /** A snapshot of the player's fields. */
  datatype Fighter = Fighter(maxHp: int, currentHp: int, defense: int, attack: real, timeBonus: int)

  /** The player can never have fewer than zero or more than their maximum hit points. */
  predicate Healthy(f: Fighter)
  {
    0 <= f.currentHp <= f.maxHp
  }

  /** A new player: 100 hit points plus the bought ones, at full health, no time bonus. */
  function Start(perm: Option<PermanentStats>): (f: Fighter)
    ensures Healthy(f) && f.currentHp == f.maxHp >= PlayerBaseHp && f.timeBonus == 0
    ensures perm.None? ==> f == Fighter(PlayerBaseHp, PlayerBaseHp, 0, 1.0, 0)
    ensures perm.Some? ==>
              f.maxHp == PlayerBaseHp + perm.value.hp && f.defense == perm.value.defense
              && f.attack == 1.0 + perm.value.attack
  {
    var p := if perm.Some? then perm.value else PermanentStats(0, 0.0, 0);
    Fighter(PlayerBaseHp + p.hp, PlayerBaseHp + p.hp, p.defense, 1.0 + p.attack, 0)
  }

  /** Defense absorbs part of a hit, but every hit costs at least one hit point. */
  function DamageTaken(amount: int, defense: int): (d: int)
    ensures d >= 1 && d >= amount - defense
    ensures d == 1 || d == amount - defense
  {
    if amount - defense < 1 then 1 else amount - defense
  }

  /** `take_damage`: hit points fall by the damage taken, but not below zero. */
  function Hurt(f: Fighter, amount: int): (g: Fighter)
    ensures g.currentHp >= 0
    ensures g.currentHp == 0 || g.currentHp == f.currentHp - DamageTaken(amount, f.defense)
    ensures g.currentHp == 0 <==> f.currentHp <= DamageTaken(amount, f.defense)
    ensures g.(currentHp := f.currentHp) == f
  {
    var hp := f.currentHp - DamageTaken(amount, f.defense);
    f.(currentHp := if hp < 0 then 0 else hp)
  }

  /** `heal`: hit points rise by `amount` but never above the maximum. */
  function Healed(f: Fighter, amount: nat): (g: Fighter)
    requires Healthy(f)
    ensures Healthy(g) && g.currentHp >= f.currentHp
    ensures g.currentHp == f.maxHp || g.currentHp == f.currentHp + amount
    ensures g.currentHp <= f.currentHp + amount
    ensures g.(currentHp := f.currentHp) == f
  {
    f.(currentHp := if f.currentHp + amount < f.maxHp then f.currentHp + amount else f.maxHp)
  }

  /**
   * `apply_bonus`: Iron Wall gives 3 defense, Vitality 20 maximum hit points and then a
   * heal of 20, Scholar 2 extra seconds per turn, Sharp Pen 0.2 more attack; any other
   * bonus does nothing.
   */
  function Bonus(f: Fighter, id: string): (g: Fighter)
    requires Healthy(f)
    ensures Healthy(g)
  {
    if id == IronWall then f.(defense := f.defense + 3)
    else if id == Vitality then Healed(f.(maxHp := f.maxHp + 20), 20)
    else if id == Scholar then f.(timeBonus := f.timeBonus + 2)
    else if id == SharpPen then f.(attack := f.attack + 0.2)
    else f
  }

  /** `get_effective_turn_time`: the turn timer starts at 15 seconds plus the time bonus. */
  function TurnSeconds(f: Fighter): int
  {
    TurnTime + f.timeBonus
  }

  /** Each bonus changes only the stat it names, by the amount it names. */
  lemma BonusEffects(f: Fighter, id: string)
    requires Healthy(f)
    ensures id == IronWall ==> Bonus(f, id) == f.(defense := f.defense + 3)
    ensures id == Vitality ==> Bonus(f, id) == f.(maxHp := f.maxHp + 20, currentHp := f.currentHp + 20)
    ensures id == Scholar ==> Bonus(f, id) == f.(timeBonus := f.timeBonus + 2)
                               && TurnSeconds(Bonus(f, id)) == TurnSeconds(f) + 2
    ensures id == SharpPen ==> Bonus(f, id) == f.(attack := f.attack + 0.2)
    ensures id !in {IronWall, Vitality, Scholar, SharpPen} ==> Bonus(f, id) == f
  {
  }

  /** More defense never makes a hit hurt more. */
  lemma DefenseNeverHurts(amount: int, d1: int, d2: int)
    requires d1 <= d2
    ensures DamageTaken(amount, d2) <= DamageTaken(amount, d1)
  {
  }

  /** Hit points after a series of hits. */
  function HpAfter(f: Fighter, hits: seq<int>): (hp: int)
    requires Healthy(f)
    ensures 0 <= hp <= f.currentHp
    decreases |hits|
  {
    if hits == [] then f.currentHp else HpAfter(Hurt(f, hits[0]), hits[1..])
  }

  /** Because every hit costs at least one point, no player survives more hits than they have hit points. */
  lemma {:induction false} KnockedOutEventually(f: Fighter, hits: seq<int>)
    requires Healthy(f) && |hits| >= f.currentHp
    ensures HpAfter(f, hits) == 0
    decreases |hits|
  {
    if hits != [] {
      var g := Hurt(f, hits[0]);
      assert g.currentHp <= f.currentHp - 1 || g.currentHp == 0;
      if g.currentHp == 0 {
        ZeroStaysZero(g, hits[1..]);
      } else {
        KnockedOutEventually(g, hits[1..]);
      }
    }
  }

  lemma {:induction false} ZeroStaysZero(f: Fighter, hits: seq<int>)
    requires Healthy(f) && f.currentHp == 0
    ensures HpAfter(f, hits) == 0
    decreases |hits|
  {
    if hits != [] {
      ZeroStaysZero(Hurt(f, hits[0]), hits[1..]);
    }
  }

  /** The mutable player of a run. */
  class Player {
    var maxHp: int
    var currentHp: int
    var defense: int
    var attackMultiplier: real
    var timeBonus: int

    function Stats(): Fighter
      reads this
    {
      Fighter(maxHp, currentHp, defense, attackMultiplier, timeBonus)
    }

    predicate Valid()
      reads this
    {
      Healthy(Stats())
    }

    /** `Player(permanent_stats)`. */
    constructor (perm: Option<PermanentStats>)
      ensures Valid() && Stats() == Start(perm)
    {
      var p := if perm.Some? then perm.value else PermanentStats(0, 0.0, 0);
      maxHp := PlayerBaseHp + p.hp;
      currentHp := PlayerBaseHp + p.hp;
      defense := p.defense;
      attackMultiplier := 1.0 + p.attack;
      timeBonus := 0;
    }

    /** `take_damage(amount)`: returns the damage actually taken. */
    method TakeDamage(amount: int) returns (dealt: int)
      requires Valid()
      modifies this
      ensures Valid() && dealt == DamageTaken(amount, old(defense)) && dealt >= 1
      ensures Stats() == Hurt(old(Stats()), amount)
    {
      dealt := if 1 < amount - defense then amount - defense else 1;
      currentHp := currentHp - dealt;
      if currentHp < 0 {
        currentHp := 0;
      }
    }

    /** `heal(amount)`. */
    method Heal(amount: nat)
      requires Valid()
      modifies this
      ensures Valid() && Stats() == Healed(old(Stats()), amount)
    {
      currentHp := if currentHp + amount < maxHp then currentHp + amount else maxHp;
    }

    /** `apply_bonus(bonus_type)`. */
    method ApplyBonus(id: string)
      requires Valid()
      modifies this
      ensures Valid() && Stats() == Bonus(old(Stats()), id)
    {
      if id == IronWall {
        defense := defense + 3;
      } else if id == Vitality {
        maxHp := maxHp + 20;
        Heal(20);
      } else if id == Scholar {
        timeBonus := timeBonus + 2;
      } else if id == SharpPen {
        attackMultiplier := attackMultiplier + 0.2;
      }
    }

    /** `get_effective_turn_time()`. */
    method EffectiveTurnTime() returns (t: int)
      ensures t == TurnSeconds(Stats())
    {
      t := TurnTime + timeBonus;
    }
  }

  /** The enemy's hit points at a stage: 100 at stage 1, and 30 more every stage after. */
  function EnemyMaxHp(stage: int): (hp: int)
    ensures stage >= 1 ==> hp >= 100
  {
    100 + (stage - 1) * 30
  }

  /** The enemy of one battle. */
  class Enemy {
    const stage: int
    const maxHp: int
    var hp: int

    /** `Enemy(stage)`: a fresh enemy at full health. */
    constructor (stage: int)
      ensures this.stage == stage && maxHp == EnemyMaxHp(stage) && hp == maxHp
    {
      this.stage := stage;
      maxHp := 100 + (stage - 1) * 30;
      hp := 100 + (stage - 1) * 30;
    }

    /** `take_damage(amount)`: hit points fall but not below zero; reports whether the enemy is beaten. */
    method TakeDamage(amount: int) returns (defeated: bool)
      modifies this
      ensures hp >= 0 && (hp == 0 || hp == old(hp) - amount)
      ensures hp == 0 <==> old(hp) <= amount
      ensures defeated <==> hp == 0
    {
      hp := hp - amount;
      if hp < 0 {
        hp := 0;
      }
      defeated := hp <= 0;
    }
  }

  /** Every stage the enemy has 30 more hit points and hits 5 harder. */
  lemma StagesGetHarder(stage: int)
    ensures EnemyMaxHp(stage + 1) == EnemyMaxHp(stage) + 30
    ensures EnemyHit(stage + 1) == EnemyHit(stage) + 5
  {
  }

  /** The phases of a battle. */
  datatype Phase = Countdown | Playing | ShowAnswer | EnemyAttack | GameOver

  /** The enemy hits harder the further the run goes: 20 plus 5 per stage. */
  function EnemyHit(stage: int): (dmg: int)
    ensures stage >= 1 ==> dmg >= 25
  {
    20 + stage * 5
  }

  /**
   * `handle_enemy_turn`: the enemy hits the player for `EnemyHit(stage)`; the battle is lost
   * when the player has no hit points left, and otherwise the enemy's attack is shown.
   */
  method HandleEnemyTurn(player: Player, stage: int) returns (phase: Phase, dealt: int)
    requires player.Valid()
    modifies player
    ensures player.Valid() && player.Stats() == Hurt(old(player.Stats()), EnemyHit(stage))
    ensures dealt == DamageTaken(EnemyHit(stage), old(player.defense))
    ensures phase == GameOver <==> old(player.currentHp) <= dealt
    ensures phase == GameOver || phase == EnemyAttack
  {
    dealt := player.TakeDamage(20 + stage * 5);
    if player.currentHp <= 0 {
      phase := GameOver;
    } else {
      phase := EnemyAttack;
    }
  }

  /** A fresh player without upgrades survives exactly three enemy turns at stage 1. */
  lemma FreshPlayerSurvivesThreeTurns()
    ensures HpAfter(Start(None), [EnemyHit(1), EnemyHit(1), EnemyHit(1)]) == 25
    ensures HpAfter(Start(None), [EnemyHit(1), EnemyHit(1), EnemyHit(1), EnemyHit(1)]) == 0
  {
    var f := Start(None);
    assert Hurt(f, 25).currentHp == 75;
    assert Hurt(Hurt(f, 25), 25).currentHp == 50;
    assert Hurt(Hurt(Hurt(f, 25), 25), 25).currentHp == 25;
    assert [25, 25, 25][1..] == [25, 25];
    assert [25, 25][1..] == [25];
    assert [25, 25, 25, 25][1..] == [25, 25, 25];
  }
}
