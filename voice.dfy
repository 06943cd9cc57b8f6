/**
 * The text-to-speech voice cache as a state machine over values. Each step is one critical
 * section of the sound manager: a request from the game loop (`play_voice`), the worker
 * taking the oldest queued word, the worker publishing its result, and the game loop
 * delivering finished clips (`update`). The class `Sound.SoundManager` performs these steps
 * in place and is proved to agree with the functions here.
 */
module Voice {
  import opened Wrappers
  import opened Text
  import opened Volume

  /**
   * The volume a freshly loaded clip plays at. `update()` loads generated clips without
   * calling `set_volume`, so they keep the mixer's default level, not `volume_voice`.
   */
  const FreshVolume: real := 1.0

  /** One entry of the play log: a voice clip or a sound effect, and the volume it played at. */
  datatype Played = VoicePlayed(word: string, volume: real) | EffectPlayed(file: string, volume: real)

  /** An entry of `ready_queue`: a word whose clip has been written, and the file it was written to. */
  datatype Completion = Completion(word: string, path: string)

  /**
   * The state the voice pipeline shares between the game loop and the worker.
   * `cache` maps a key to the volume of its loaded clip (`voice_cache`); `disk` holds the
   * keys whose clip exists under `assets/voice`; `worker` is the word the worker thread
   * holds between its two critical sections; `log` records every clip played.
   */
  datatype VoiceState = VoiceState(
    cache: map<string, real>,
    disk: set<string>,
    queue: seq<string>,
    generating: set<string>,
    worker: Option<string>,
    ready: seq<Completion>,
    pending: Option<string>,
    volume: real,
    log: seq<Played>)

  /** A state with nothing cached, queued or pending, as the constructor leaves it. */
  function Initial(disk: set<string>): VoiceState
  {
    VoiceState(map[], disk, [], {}, None, [], None, 0.8, [])
  }

  /** The words that are queued or in the worker's hands. */
  function InProgress(s: VoiceState): set<string>
  {
    Elems(s.queue) + (if s.worker.Some? then {s.worker.value} else {})
  }

  /**
   * The discipline the single lock protects: the queue holds keys without repetition,
   * `generating_words` is exactly the queued words plus the one the worker holds, every
   * finished entry names its key's own file and that file exists, and the voice volume is
   * in range.
   */
  predicate Inv(s: VoiceState)
  {
    && (forall w :: w in s.queue ==> IsKey(w))
    && NoDup(s.queue)
    && s.generating == InProgress(s)
    && (s.worker.Some? ==> IsKey(s.worker.value) && s.worker.value !in s.queue)
    && (forall c :: c in s.ready ==> IsKey(c.word) && c.path == VoicePath(c.word) && c.word in s.disk)
    && (forall w :: w in s.cache ==> IsKey(w))
    && (s.pending.Some? ==> IsKey(s.pending.value))
    && 0.0 <= s.volume <= 1.0
  }

  // ---------------------------------------------------------------------------------------
  // The steps

  /** The request found its key in memory, or loaded it from disk. */
  predicate Hit(s: VoiceState, w: string, loadOk: bool)
  {
    w in s.cache || (w in s.disk && loadOk)
  }

  /**
   * `play_voice(word)`: normalize; ignore an empty key; play from memory at the voice
   * volume; else load from disk, cache and play; else (no file, or a file that fails to
   * load) make the key the auto-play target and queue it unless it is already in progress.
   */
  function Request(s: VoiceState, word: string, loadOk: bool): VoiceState
  {
    var w := Normalize(word);
    if w == [] then s
    else if Hit(s, w, loadOk) then
      s.(cache := s.cache[w := s.volume], log := s.log + [VoicePlayed(w, s.volume)])
    else if w in s.generating then s.(pending := Some(w))
    else s.(pending := Some(w), queue := s.queue + [w], generating := s.generating + {w})
  }

  /**
   * The worker's first critical section: pop the oldest queued word. An empty word would
   * read as "nothing popped" to the worker; the invariant rules that out.
   */
  function Take(s: VoiceState): VoiceState
    requires s.worker.None?
  {
    if s.queue == [] then s
    else s.(queue := s.queue[1..], worker := if s.queue[0] != [] then Some(s.queue[0]) else None)
  }

  /**
   * The worker's second critical section, after the synthesis attempt: on success the
   * clip is on disk and `(word, path)` is published; either way the word leaves
   * `generating_words`.
   */
  function Finish(s: VoiceState, success: bool): VoiceState
    requires s.worker.Some?
  {
    var w := s.worker.value;
    if success then
      s.(disk := s.disk + {w}, ready := s.ready + [Completion(w, VoicePath(w))],
         generating := s.generating - {w}, worker := None)
    else s.(generating := s.generating - {w}, worker := None)
  }

  /** One full round of the worker loop: take a word if there is one and process it. */
  function WorkerStep(s: VoiceState, success: bool): VoiceState
    requires s.worker.None?
  {
    var t := Take(s);
    if t.worker.Some? then Finish(t, success) else t
  }

  /**
   * One iteration of `update()`: pop the oldest finished entry; if its clip loads, cache it
   * (replacing any earlier clip) and, when it is the auto-play target, play it and clear
   * the target.
   */
  function Deliver(s: VoiceState, loadOk: bool): VoiceState
    requires s.ready != []
  {
    var c := s.ready[0];
    var t := s.(ready := s.ready[1..]);
    if !loadOk then t
    else if s.pending == Some(c.word) then
      t.(cache := s.cache[c.word := FreshVolume], pending := None,
         log := s.log + [VoicePlayed(c.word, FreshVolume)])
    else t.(cache := s.cache[c.word := FreshVolume])
  }

  /** `update()`: deliver every finished entry in order; `loadOk[i]` says whether the i-th clip loads. */
  function Drain(s: VoiceState, loadOk: seq<bool>): VoiceState
    requires |loadOk| == |s.ready|
    decreases |loadOk|
  {
    if loadOk == [] then s else Drain(Deliver(s, loadOk[0]), loadOk[1..])
  }

  /** `set_volume_voice(v)`: store the clamped level and apply it to every cached clip. */
  function Retune(s: VoiceState, v: real): (t: VoiceState)
    ensures t.volume == Clamp01(v)
    ensures t.cache.Keys == s.cache.Keys
    ensures forall w :: w in t.cache ==> t.cache[w] == Clamp01(v)
    ensures t == s.(volume := t.volume, cache := t.cache)
  {
    s.(volume := Clamp01(v), cache := map w | w in s.cache :: Clamp01(v))
  }

  /** A cache whose every clip is at the given volume, and which holds the same keys, is the retuned cache. */
  lemma RetunedCache(s: VoiceState, v: real, cache: map<string, real>)
    requires cache.Keys == s.cache.Keys && forall w :: w in cache ==> cache[w] == Clamp01(v)
    ensures s.(volume := Clamp01(v), cache := cache) == Retune(s, v)
  {
    assert cache == Retune(s, v).cache;
  }

  // ---------------------------------------------------------------------------------------
  // Every step keeps the invariant

  lemma RequestKeepsInv(s: VoiceState, word: string, loadOk: bool)
    requires Inv(s)
    ensures Inv(Request(s, word, loadOk))
  {
    var w := Normalize(word);
    if w != [] {
      NormalizeGivesKey(word);
      if !Hit(s, w, loadOk) && w !in s.generating {
        var t := Request(s, word, loadOk);
        NoDupAppend(s.queue, w);
        assert Elems(t.queue) == Elems(s.queue) + {w};
      }
    }
  }

  lemma TakeKeepsInv(s: VoiceState)
    requires Inv(s) && s.worker.None?
    ensures Inv(Take(s))
  {
    if s.queue != [] {
      var t := Take(s);
      NoDupTail(s.queue);
      assert s.queue == [s.queue[0]] + t.queue;
      assert Elems(s.queue) == {s.queue[0]} + Elems(t.queue);
      assert s.queue[0] in s.queue;
    }
  }

  lemma FinishKeepsInv(s: VoiceState, success: bool)
    requires Inv(s) && s.worker.Some?
    ensures Inv(Finish(s, success))
  {
  }

  lemma WorkerStepKeepsInv(s: VoiceState, success: bool)
    requires Inv(s) && s.worker.None?
    ensures Inv(WorkerStep(s, success))
  {
    TakeKeepsInv(s);
    if Take(s).worker.Some? { FinishKeepsInv(Take(s), success); }
  }

  lemma {:induction false} DrainKeepsInv(s: VoiceState, loadOk: seq<bool>)
    requires Inv(s) && |loadOk| == |s.ready|
    ensures Inv(Drain(s, loadOk))
    decreases |loadOk|
  {
    if loadOk != [] {
      var t := Deliver(s, loadOk[0]);
      assert s.ready[0] in s.ready;
      assert forall c :: c in t.ready ==> c in s.ready;
      DrainKeepsInv(t, loadOk[1..]);
    }
  }

  lemma RetuneKeepsInv(s: VoiceState, v: real)
    requires Inv(s)
    ensures Inv(Retune(s, v))
  {
  }

  // ---------------------------------------------------------------------------------------
  // Requests

  /** Two spellings with the same key make the same request: "Cat" and " cat " collide. */
  lemma SameKeySameRequest(s: VoiceState, a: string, b: string, loadOk: bool)
    requires Normalize(a) == Normalize(b)
    ensures Request(s, a, loadOk) == Request(s, b, loadOk)
  {
  }

  lemma CatAndSpacedCatCollide(s: VoiceState, loadOk: bool)
    ensures Request(s, "Cat", loadOk) == Request(s, " cat ", loadOk)
  {
    CatCollides();
  }

  /** A word that normalizes to nothing changes nothing. */
  lemma BlankRequestIgnored(s: VoiceState, word: string, loadOk: bool)
    requires forall i :: 0 <= i < |word| ==> IsSpace(word[i])
    ensures Request(s, word, loadOk) == s
  {
    assert forall i :: 0 <= i < |Lower(word)| ==> IsSpace(Lower(word)[i]);
    StripFacts(Lower(word));
  }

  /**
   * A memory hit re-applies the voice volume to the cached clip and plays it; the queue,
   * the in-progress set and the auto-play target are untouched.
   */
  lemma MemoryHit(s: VoiceState, word: string, loadOk: bool)
    requires Normalize(word) != [] && Normalize(word) in s.cache
    ensures var t := Request(s, word, loadOk); var w := Normalize(word);
            && t.cache == s.cache[w := s.volume]
            && t.log == s.log + [VoicePlayed(w, s.volume)]
            && t.queue == s.queue && t.generating == s.generating && t.pending == s.pending
            && t.disk == s.disk && t.ready == s.ready
  {
  }

  /**
   * A disk hit whose file loads caches the clip at the voice volume and plays it; a file
   * that fails to load falls through to generation instead.
   */
  lemma DiskHit(s: VoiceState, word: string, loadOk: bool)
    requires Normalize(word) != [] && Normalize(word) !in s.cache && Normalize(word) in s.disk
    ensures var t := Request(s, word, loadOk); var w := Normalize(word);
            && (loadOk ==> t.cache == s.cache[w := s.volume] && t.log == s.log + [VoicePlayed(w, s.volume)]
                           && t.queue == s.queue && t.pending == s.pending)
            && (!loadOk ==> t.pending == Some(w) && t.log == s.log && w in t.generating)
  {
  }

  /**
   * A miss makes the key the auto-play target (overwriting the previous one) and queues it
   * at the back, unless it is already in progress; it never plays anything.
   */
  lemma Miss(s: VoiceState, word: string, loadOk: bool)
    requires Inv(s)
    requires Normalize(word) != [] && !Hit(s, Normalize(word), loadOk)
    ensures var t := Request(s, word, loadOk); var w := Normalize(word);
            && t.pending == Some(w)
            && t.log == s.log && t.cache == s.cache
            && t.queue == (if w in InProgress(s) then s.queue else s.queue + [w])
            && t.generating == s.generating + {w}
  {
  }

  /** Requesting the same word twice before it is ready queues it at most once. */
  lemma RepeatedRequestQueuedOnce(s: VoiceState, word: string, ok1: bool, ok2: bool)
    requires Inv(s)
    ensures var t := Request(Request(s, word, ok1), word, ok2);
            && Inv(t)
            && |t.queue| <= |s.queue| + 1
            && forall i, j :: 0 <= i < j < |t.queue| && t.queue[i] == Normalize(word) ==> t.queue[j] != Normalize(word)
  {
    var w := Normalize(word);
    var s1 := Request(s, word, ok1);
    var t := Request(s1, word, ok2);
    RequestKeepsInv(s, word, ok1);
    RequestKeepsInv(s1, word, ok2);
    QueueIsFifo(s, word, ok1, true);
    QueueIsFifo(s1, word, ok2, true);
    if s1.queue != s.queue {
      RequestQueuesOnce(s, word, ok1);
    }
    NoDupOnce(t.queue, w);
  }

  /** A request that queued its key leaves it in progress, so the next request for it queues nothing. */
  lemma RequestQueuesOnce(s: VoiceState, word: string, loadOk: bool)
    requires Request(s, word, loadOk).queue != s.queue
    ensures forall ok :: Request(Request(s, word, loadOk), word, ok).queue == Request(s, word, loadOk).queue
  {
  }

  // ---------------------------------------------------------------------------------------
  // The worker

  /**
   * First in, first out: a request only ever appends at the back, the worker only ever
   * removes the front, and nothing else touches the queue.
   */
  lemma QueueIsFifo(s: VoiceState, word: string, loadOk: bool, success: bool)
    ensures Request(s, word, loadOk).queue[..|s.queue|] == s.queue
    ensures |Request(s, word, loadOk).queue| <= |s.queue| + 1
    ensures s.worker.None? && s.queue != [] ==> Take(s).queue == s.queue[1..]
    ensures s.worker.Some? ==> Finish(s, success).queue == s.queue
  {
  }

  /** The worker serves the oldest queued word. */
  lemma TakeServesOldest(s: VoiceState)
    requires Inv(s) && s.worker.None? && s.queue != []
    ensures Take(s).worker == Some(s.queue[0])
    ensures Take(s).generating == s.generating
  {
    assert s.queue[0] in s.queue;
  }

  /** A successful synthesis publishes exactly one entry, naming the word's own file, which now exists. */
  lemma SuccessPublishesOnce(s: VoiceState)
    requires Inv(s) && s.worker.Some?
    ensures var w := s.worker.value; var t := Finish(s, true);
            && t.ready == s.ready + [Completion(w, VoicePath(w))]
            && w in t.disk && w !in t.generating
            && t.queue == s.queue && t.cache == s.cache && t.pending == s.pending && t.log == s.log
  {
  }

  /** A failed synthesis publishes nothing and releases the word so that it can be requested again. */
  lemma FailureReleasesWord(s: VoiceState)
    requires Inv(s) && s.worker.Some?
    ensures var w := s.worker.value; var t := Finish(s, false);
            && t.ready == s.ready && t.disk == s.disk
            && w !in t.generating && t.generating == Elems(t.queue)
  {
  }

  /**
   * No permanent lock-out: after a failed attempt, requesting the word again (with no clip
   * to load) queues it once more.
   */
  lemma RetryAfterFailure(s: VoiceState)
    requires Inv(s) && s.worker.Some? && s.worker.value !in s.cache
    ensures var w := s.worker.value; var t := Request(Finish(s, false), w, false);
            && t.queue == s.queue + [w]
            && t.pending == Some(w)
  {
    var w := s.worker.value;
    assert IsKey(w);
  }

  /** When the worker is idle, the words in progress are exactly the queued ones. */
  lemma IdleWorkerInProgress(s: VoiceState)
    requires Inv(s) && s.worker.None?
    ensures s.generating == Elems(s.queue)
    ensures s.queue == [] ==> s.generating == {}
  {
  }

  // ---------------------------------------------------------------------------------------
  // Delivery

  /** `update()` with nothing finished changes nothing. */
  lemma DrainNothing(s: VoiceState)
    requires s.ready == []
    ensures Drain(s, []) == s
  {
  }

  /** `update()` empties the hand-off queue and touches neither the disk nor the worker's side. */
  lemma {:induction false} DrainEmptiesReady(s: VoiceState, loadOk: seq<bool>)
    requires |loadOk| == |s.ready|
    ensures var t := Drain(s, loadOk);
            && t.ready == []
            && t.queue == s.queue && t.generating == s.generating && t.worker == s.worker
            && t.disk == s.disk && t.volume == s.volume
    decreases |loadOk|
  {
    if loadOk != [] { DrainEmptiesReady(Deliver(s, loadOk[0]), loadOk[1..]); }
  }

  /**
   * After `update()` the cached keys are the earlier ones plus exactly the words whose clip
   * loaded; failed loads are skipped.
   */
  lemma {:induction false} DrainCachesLoaded(s: VoiceState, loadOk: seq<bool>)
    requires |loadOk| == |s.ready|
    ensures Drain(s, loadOk).cache.Keys
            == s.cache.Keys + (set i | 0 <= i < |loadOk| && loadOk[i] :: s.ready[i].word)
    decreases |loadOk|
  {
    if loadOk != [] {
      var t := Deliver(s, loadOk[0]);
      DrainCachesLoaded(t, loadOk[1..]);
      var rest := set i | 0 <= i < |loadOk| - 1 && loadOk[1..][i] :: t.ready[i].word;
      var all := set i | 0 <= i < |loadOk| && loadOk[i] :: s.ready[i].word;
      assert all == rest + (if loadOk[0] then {s.ready[0].word} else {}) by {
        forall x | x in all ensures x in rest + (if loadOk[0] then {s.ready[0].word} else {}) {
          var i :| 0 <= i < |loadOk| && loadOk[i] && s.ready[i].word == x;
          if i > 0 { assert loadOk[1..][i - 1] && t.ready[i - 1].word == x; }
        }
        forall x | x in rest ensures x in all {
          var i :| 0 <= i < |loadOk| - 1 && loadOk[1..][i] && t.ready[i].word == x;
          assert loadOk[i + 1] && s.ready[i + 1].word == x;
        }
      }
    }
  }

  /** Whether some finished entry for `w` loads. */
  predicate Arrives(s: VoiceState, loadOk: seq<bool>, w: string)
    requires |loadOk| == |s.ready|
  {
    exists i :: 0 <= i < |loadOk| && loadOk[i] && s.ready[i].word == w
  }

  /** A word arrives in a drain when the first entry loads for it or it arrives in the rest. */
  lemma ArrivesStep(s: VoiceState, loadOk: seq<bool>, w: string)
    requires |loadOk| == |s.ready| && loadOk != []
    ensures Arrives(s, loadOk, w)
            <==> (loadOk[0] && s.ready[0].word == w) || Arrives(Deliver(s, loadOk[0]), loadOk[1..], w)
  {
    var t := Deliver(s, loadOk[0]);
    if Arrives(s, loadOk, w) && !(loadOk[0] && s.ready[0].word == w) {
      var i :| 0 <= i < |loadOk| && loadOk[i] && s.ready[i].word == w;
      assert loadOk[1..][i - 1] && t.ready[i - 1].word == w;
    }
    if Arrives(t, loadOk[1..], w) {
      var i :| 0 <= i < |loadOk| - 1 && loadOk[1..][i] && t.ready[i].word == w;
      assert loadOk[i + 1] && s.ready[i + 1].word == w;
    }
  }

  /**
   * After `update()` every word whose clip loaded is cached at the fresh clip's level,
   * replacing whatever clip was cached for it before; every other cached clip keeps its level.
   */
  lemma {:induction false} DrainCacheValues(s: VoiceState, loadOk: seq<bool>)
    requires |loadOk| == |s.ready|
    ensures forall w :: w in Drain(s, loadOk).cache ==> Arrives(s, loadOk, w) || w in s.cache
    ensures forall w :: w in Drain(s, loadOk).cache ==>
              Drain(s, loadOk).cache[w] == if Arrives(s, loadOk, w) then FreshVolume else s.cache[w]
    decreases |loadOk|
  {
    if loadOk != [] {
      var t := Deliver(s, loadOk[0]);
      DrainCacheValues(t, loadOk[1..]);
      forall w | w in Drain(s, loadOk).cache
        ensures Arrives(s, loadOk, w) || w in s.cache
        ensures Drain(s, loadOk).cache[w] == if Arrives(s, loadOk, w) then FreshVolume else s.cache[w]
      {
        ArrivesStep(s, loadOk, w);
      }
    }
  }

  /**
   * `update()` plays at most one clip: the auto-play target's, exactly when a finished entry
   * for the target loads, and then clears the target. Otherwise nothing is played and the
   * target stays.
   */
  lemma {:induction false} DrainPlaysOnlyTarget(s: VoiceState, loadOk: seq<bool>)
    requires |loadOk| == |s.ready|
    ensures var t := Drain(s, loadOk);
            if s.pending.Some? && Arrives(s, loadOk, s.pending.value) then
              t.log == s.log + [VoicePlayed(s.pending.value, FreshVolume)] && t.pending == None
            else
              t.log == s.log && t.pending == s.pending
    decreases |loadOk|
  {
    if loadOk != [] {
      var t := Deliver(s, loadOk[0]);
      DrainPlaysOnlyTarget(t, loadOk[1..]);
      if s.pending.Some? {
        var w := s.pending.value;
        if loadOk[0] && s.ready[0].word == w {
          assert Arrives(s, loadOk, w);
          DrainPlaysNothing(t, loadOk[1..]);
        } else {
          assert t.pending == s.pending && t.log == s.log;
          if Arrives(s, loadOk, w) {
            var i :| 0 <= i < |loadOk| && loadOk[i] && s.ready[i].word == w;
            assert i > 0;
            assert loadOk[1..][i - 1] && t.ready[i - 1].word == w;
            assert Arrives(t, loadOk[1..], w);
          }
        }
      }
    }
  }

  /** With no auto-play target, `update()` plays nothing. */
  lemma {:induction false} DrainPlaysNothing(s: VoiceState, loadOk: seq<bool>)
    requires |loadOk| == |s.ready| && s.pending.None?
    ensures Drain(s, loadOk).log == s.log && Drain(s, loadOk).pending.None?
    decreases |loadOk|
  {
    if loadOk != [] { DrainPlaysNothing(Deliver(s, loadOk[0]), loadOk[1..]); }
  }

  /** A clip that was generated and then delivered is both on disk and in memory. */
  lemma CompletionIsStoredAndCached(s: VoiceState)
    requires Inv(s) && s.worker.Some? && s.ready == []
    ensures var w := s.worker.value; var t := Drain(Finish(s, true), [true]);
            && w in t.disk && w in t.cache && t.ready == []
  {
  }

  // ---------------------------------------------------------------------------------------
  // Latest wins

  /**
   * One round from an idle pipeline: the worker generates the oldest queued word and
   * `update()` delivers it. The clip is cached, and it is played (clearing the target)
   * exactly when it is the auto-play target.
   */
  lemma ServeFront(s: VoiceState)
    requires Inv(s) && s.worker.None? && s.ready == [] && s.queue != []
    ensures WorkerStep(s, true).worker.None? && |WorkerStep(s, true).ready| == 1
    ensures var w := s.queue[0]; var t := Drain(WorkerStep(s, true), [true]);
            && Inv(t) && t.worker.None? && t.ready == [] && t.queue == s.queue[1..]
            && w in t.cache && w in t.disk
            && if s.pending == Some(w) then t.log == s.log + [VoicePlayed(w, FreshVolume)] && t.pending == None
               else t.log == s.log && t.pending == s.pending
  {
    TakeServesOldest(s);
    WorkerStepKeepsInv(s, true);
    DrainKeepsInv(WorkerStep(s, true), [true]);
  }

  /**
   * Two misses, `a` then `b`, before either is ready: `a` is generated and delivered first
   * and is cached but not played, because `b` is the target; when `b` is delivered it is
   * played and the target is cleared.
   */
  lemma LatestWins(s: VoiceState, a: string, b: string)
    requires Inv(s) && s.worker.None? && s.queue == [] && s.ready == []
    requires IsKey(a) && IsKey(b) && a != b
    requires a !in s.cache && b !in s.cache
    ensures var s1 := Request(Request(s, a, false), b, false);
            && Inv(s1) && s1.worker.None? && s1.ready == [] && s1.log == s.log
            && s1.queue == [a, b] && s1.pending == Some(b)
    ensures var s1 := Request(Request(s, a, false), b, false);
            var s2 := Drain(WorkerStep(s1, true), [true]);
            && Inv(s2) && s2.worker.None? && s2.ready == [] && s2.queue == [b]
            && a in s2.cache && s2.log == s.log && s2.pending == Some(b)
    ensures var s1 := Request(Request(s, a, false), b, false);
            var s2 := Drain(WorkerStep(s1, true), [true]);
            var s3 := Drain(WorkerStep(s2, true), [true]);
            && b in s3.cache && s3.log == s.log + [VoicePlayed(b, FreshVolume)] && s3.pending == None
  {
    IdleWorkerInProgress(s);
    RequestKeepsInv(s, a, false);
    var s0 := Request(s, a, false);
    RequestKeepsInv(s0, b, false);
    var s1 := Request(s0, b, false);
    assert s1.queue == [a, b];
    ServeFront(s1);
    var s2 := Drain(WorkerStep(s1, true), [true]);
    assert s2.queue == [b];
    ServeFront(s2);
  }
}
