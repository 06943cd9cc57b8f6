/** The persistent save file: rank points, per-word mastery, bought upgrades and mixer volumes. */
module Save {
  import opened Wrappers
  import opened Volume
  import opened Combat

  const Hp: string := "hp"
  const Attack: string := "attack"
  const Defense: string := "defense"

  /** The volume table written to a new save file, also filled in when an old file lacks one. */
  const DefaultVolumes: map<string, real> := map["bgm" := 0.3, "se" := 0.6, "voice" := 0.8]

  /** Volume reported for a channel the table does not name. */
  const UnknownChannelVolume: real := 0.5

  /**
   * The contents of the save file. Mastery is keyed by word id (the file keys it by the id's
   * decimal string, a one-to-one renaming). A file written by an older version may have no
   * volume table.
   */
  datatype SaveData = SaveData(
    rankPoints: int,
    wordMastery: map<int, int>,
    upgrades: map<string, int>,
    volume: Option<map<string, real>>)

  /** `_default_data()`. */
  function Default(): (d: SaveData)
    ensures Valid(d) && d.rankPoints == 0 && d.wordMastery == map[]
    ensures forall k :: Level(d, k) == 0
    ensures d.volume == Some(DefaultVolumes)
  {
    SaveData(0, map[], map[Hp := 0, Attack := 0, Defense := 0], Some(DefaultVolumes))
  }

  /** Everything a game writes stays non-negative, and stored volumes are in range. */
  predicate Valid(d: SaveData)
  {
    && d.rankPoints >= 0
    && (forall id :: id in d.wordMastery ==> d.wordMastery[id] >= 0)
    && (forall k :: k in d.upgrades ==> d.upgrades[k] >= 0)
    && (d.volume.Some? ==> forall c :: c in d.volume.value ==> 0.0 <= d.volume.value[c] <= 1.0)
  }

  /** `get_word_mastery(id)`: how often the word was answered correctly, 0 if never. */
  function Mastery(d: SaveData, id: int): int
  {
    if id in d.wordMastery then d.wordMastery[id] else 0
  }

  /** `update_word_mastery(id)`: one more correct answer for this word. */
  function Mastered(d: SaveData, id: int): (e: SaveData)
    ensures Mastery(e, id) == Mastery(d, id) + 1
    ensures forall other :: other != id ==> Mastery(e, other) == Mastery(d, other)
    ensures e.wordMastery.Keys == d.wordMastery.Keys + {id}
    ensures e.(wordMastery := d.wordMastery) == d
  {
    d.(wordMastery := d.wordMastery[id := Mastery(d, id) + 1])
  }

  /** `get_upgrade_level(kind)`: 0 for an upgrade never bought. */
  function Level(d: SaveData, kind: string): int
  {
    if kind in d.upgrades then d.upgrades[kind] else 0
  }

  /**
   * `purchase_upgrade(kind, cost)`: succeeds exactly when the player has at least `cost`
   * points, and then spends them and raises that upgrade by one level; a failed purchase
   * changes nothing.
   */
  function Purchase(d: SaveData, kind: string, cost: int): (r: (SaveData, bool))
    ensures r.1 <==> d.rankPoints >= cost
    ensures r.1 ==> r.0.rankPoints == d.rankPoints - cost && Level(r.0, kind) == Level(d, kind) + 1
                    && (forall k :: k != kind ==> Level(r.0, k) == Level(d, k))
                    && r.0.wordMastery == d.wordMastery && r.0.volume == d.volume
    ensures !r.1 ==> r.0 == d
  {
    if d.rankPoints >= cost then
      (d.(rankPoints := d.rankPoints - cost, upgrades := d.upgrades[kind := Level(d, kind) + 1]), true)
    else (d, false)
  }

  /** `get_permanent_stats()`: 10 hit points and 0.1 attack per level, and 1 defense per level. */
  function PermanentStatsOf(d: SaveData): (s: PermanentStats)
    requires Valid(d)
    ensures s.hp == 10 * Level(d, Hp) && s.defense == Level(d, Defense)
    ensures s.attack == Level(d, Attack) as real * 0.1
  {
    PermanentStats(Level(d, Hp) * 10, Level(d, Attack) as real * 0.1, Level(d, Defense))
  }

  /** The data with a volume table, adding the defaults when it has none. */
  function WithVolumes(d: SaveData): (e: SaveData)
    ensures e.volume.Some?
    ensures d.volume.Some? ==> e == d
    ensures d.volume.None? ==> e == d.(volume := Some(DefaultVolumes))
  {
    if d.volume.None? then d.(volume := Some(DefaultVolumes)) else d
  }

  /** `get_volume(channel)`: the stored level, 0.5 for a channel not in the table. */
  function VolumeOf(d: SaveData, channel: string): real
  {
    var t := WithVolumes(d).volume.value;
    if channel in t then t[channel] else UnknownChannelVolume
  }

  /** `set_volume(channel, value)`: stores the clamped level for that channel. */
  function VolumeSet(d: SaveData, channel: string, value: real): (e: SaveData)
    ensures e.volume.Some? && e.volume.value.Keys == WithVolumes(d).volume.value.Keys + {channel}
    ensures e.(volume := d.volume) == d
  {
    var t := WithVolumes(d).volume.value;
    d.(volume := Some(t[channel := Clamp01(value)]))
  }

  /** Reading a level back gives the clamped value that was set; other channels keep theirs. */
  lemma VolumeRoundTrip(d: SaveData, channel: string, other: string, value: real)
    requires other != channel
    ensures VolumeOf(VolumeSet(d, channel, value), channel) == Clamp01(value)
    ensures VolumeOf(VolumeSet(d, channel, value), other) == VolumeOf(d, other)
  {
  }

  /** A save without a volume table reports the default levels. */
  lemma MissingVolumesAreDefaults(d: SaveData)
    requires d.volume.None?
    ensures VolumeOf(d, "bgm") == 0.3 && VolumeOf(d, "se") == 0.6 && VolumeOf(d, "voice") == 0.8
    ensures VolumeOf(d, "music") == UnknownChannelVolume
  {
  }

  /** Recording a correct answer, earning points and buying an upgrade keep the save valid. */
  lemma ProgressKeepsValid(d: SaveData, id: int, amount: nat, kind: string, cost: int)
    requires Valid(d)
    ensures Valid(Mastered(d, id))
    ensures Valid(d.(rankPoints := d.rankPoints + amount))
    ensures Valid(Purchase(d, kind, cost).0)
  {
  }

  /** Filling in the default levels and setting a level keep every stored level within 0..1. */
  lemma VolumesKeepValid(d: SaveData, channel: string, value: real)
    requires Valid(d)
    ensures Valid(WithVolumes(d))
    ensures Valid(VolumeSet(d, channel, value))
  {
    var t := WithVolumes(d).volume.value;
    assert forall c :: c in t ==> 0.0 <= t[c] <= 1.0;
    var e := VolumeSet(d, channel, value).volume.value;
    assert forall c :: c in e ==> 0.0 <= e[c] <= 1.0 by {
      forall c | c in e ensures 0.0 <= e[c] <= 1.0 {
        if c != channel { assert e[c] == t[c]; }
      }
    }
  }

  /** Buying the HP upgrade twice gives a new player 20 more hit points. */
  lemma TwoHpUpgrades(d: SaveData, cost1: int, cost2: int)
    requires Valid(d) && Level(d, Hp) == 0 && d.rankPoints >= cost1 && d.rankPoints - cost1 >= cost2
    ensures var e := Purchase(Purchase(d, Hp, cost1).0, Hp, cost2).0;
            Valid(e) && Start(Some(PermanentStatsOf(e))).maxHp == PlayerBaseHp + 20
  {
    var e1 := Purchase(d, Hp, cost1).0;
    ProgressKeepsValid(d, 0, 0, Hp, cost1);
    ProgressKeepsValid(e1, 0, 0, Hp, cost2);
  }

  /** After a reset a new player has no bought bonuses at all. */
  lemma ResetPlayerIsPlain()
    ensures Start(Some(PermanentStatsOf(Default()))) == Start(None)
  {
  }

  /** The save manager: the data in memory and what was last written to the save file. */
  class SaveManager {
    var data: SaveData
    var stored: Option<SaveData>

    /**
     * `SaveManager()`: `loaded` is the file's contents when it exists and parses; otherwise
     * the defaults are used and nothing is written yet.
     */
    constructor (loaded: Option<SaveData>)
      ensures data == (if loaded.Some? then loaded.value else Default())
      ensures stored == loaded
    {
      data := if loaded.Some? then loaded.value else Default();
      stored := loaded;
    }

    /** `get_word_mastery(id)`. */
    method GetWordMastery(id: int) returns (n: int)
      ensures n == Mastery(data, id)
    {
      n := if id in data.wordMastery then data.wordMastery[id] else 0;
    }

    /** `update_word_mastery(id)`, then save. */
    method UpdateWordMastery(id: int)
      modifies this
      ensures data == Mastered(old(data), id) && stored == Some(data)
    {
      var n := GetWordMastery(id);
      data := data.(wordMastery := data.wordMastery[id := n + 1]);
      stored := Some(data);
    }

    /** `add_rank_points(amount)`, then save. */
    method AddRankPoints(amount: int)
      modifies this
      ensures data == old(data).(rankPoints := old(data).rankPoints + amount) && stored == Some(data)
    {
      data := data.(rankPoints := data.rankPoints + amount);
      stored := Some(data);
    }

    /** `get_rank_points()`. */
    method GetRankPoints() returns (p: int)
      ensures p == data.rankPoints
    {
      p := data.rankPoints;
    }

    /** `get_upgrade_level(kind)`. */
    method GetUpgradeLevel(kind: string) returns (n: int)
      ensures n == Level(data, kind)
    {
      n := if kind in data.upgrades then data.upgrades[kind] else 0;
    }

    /** `purchase_upgrade(kind, cost)`: the file is written only when the purchase succeeds. */
    method PurchaseUpgrade(kind: string, cost: int) returns (ok: bool)
      modifies this
      ensures (data, ok) == Purchase(old(data), kind, cost)
      ensures stored == if ok then Some(data) else old(stored)
    {
      if data.rankPoints >= cost {
        var n := GetUpgradeLevel(kind);
        data := data.(rankPoints := data.rankPoints - cost, upgrades := data.upgrades[kind := n + 1]);
        stored := Some(data);
        ok := true;
      } else {
        ok := false;
      }
    }

    /** `get_permanent_stats()`. */
    method GetPermanentStats() returns (s: PermanentStats)
      requires Valid(data)
      ensures s == PermanentStatsOf(data)
    {
      var hp := GetUpgradeLevel(Hp);
      var attack := GetUpgradeLevel(Attack);
      var defense := GetUpgradeLevel(Defense);
      s := PermanentStats(hp * 10, attack as real * 0.1, defense * 1);
    }

    /** `reset_data()`: back to the defaults, saved. */
    method ResetData()
      modifies this
      ensures data == Default() && stored == Some(Default())
    {
      data := Default();
      stored := Some(data);
    }

    /** `get_volume(channel)`: fills in a missing volume table in memory only, without saving. */
    method GetVolume(channel: string) returns (v: real)
      modifies this
      ensures data == WithVolumes(old(data)) && stored == old(stored)
      ensures v == VolumeOf(old(data), channel)
    {
      if data.volume.None? {
        data := data.(volume := Some(DefaultVolumes));
      }
      var t := data.volume.value;
      v := if channel in t then t[channel] else UnknownChannelVolume;
    }

    /** `set_volume(channel, value)`, then save. */
    method SetVolume(channel: string, value: real)
      modifies this
      ensures data == VolumeSet(old(data), channel, value) && stored == Some(data)
    {
      if data.volume.None? {
        data := data.(volume := Some(DefaultVolumes));
      }
      data := data.(volume := Some(data.volume.value[channel := Clamp01(value)]));
      stored := Some(data);
    }
  }
}
