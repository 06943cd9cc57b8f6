/**
 * The sound manager as the game uses it: background music and effect levels, the effect
 * cache, and the voice cache whose every step is proved to follow `Voice`. Each method is
 * one critical section; the mixer is reduced to a play log and load outcomes.
 */
module Sound {
  import opened Wrappers
  import opened Text
  import opened Volume
  import opened Voice

  class SoundManager {
    var voiceCache: map<string, real>       // key -> volume of its loaded clip
    var seCache: map<string, real>          // effect file -> volume of its loaded clip
    var generationQueue: seq<string>
    var readyQueue: seq<Completion>
    var generatingWords: set<string>
    var pendingPlay: Option<string>
    var volumeBgm: real
    var volumeSe: real
    var volumeVoice: real
    var voiceFiles: set<string>             // keys whose clip exists under assets/voice
    const soundFiles: set<string>           // files under assets/sounds
    var worker: Option<string>              // the word the worker thread is processing
    ghost var played: seq<Played>

    /** The voice pipeline's part of the state, as a value. */
    ghost function State(): VoiceState
      reads this
    {
      VoiceState(voiceCache, voiceFiles, generationQueue, generatingWords, worker,
                 readyQueue, pendingPlay, volumeVoice, played)
    }

    ghost predicate Valid()
      reads this
    {
      Inv(State()) && 0.0 <= volumeBgm <= 1.0 && 0.0 <= volumeSe <= 1.0
    }

    /** Empty caches and queues, default levels 0.3 / 0.6 / 0.8, an idle worker. */
    constructor (voiceFiles: set<string>, soundFiles: set<string>)
      ensures Valid()
      ensures State() == Initial(voiceFiles)
      ensures seCache == map[] && volumeBgm == 0.3 && volumeSe == 0.6
      ensures this.soundFiles == soundFiles
    {
      this.voiceCache := map[];
      this.seCache := map[];
      this.generationQueue := [];
      this.readyQueue := [];
      this.generatingWords := {};
      this.pendingPlay := None;
      this.volumeBgm := 0.3;
      this.volumeSe := 0.6;
      this.volumeVoice := 0.8;
      this.voiceFiles := voiceFiles;
      this.soundFiles := soundFiles;
      this.worker := None;
      this.played := [];
    }

    /** `play_voice(word)`; `loadOk` says whether the clip on disk, if any, loads. */
    method PlayVoice(word: string, loadOk: bool)
      requires Valid()
      modifies this
      ensures Valid()
      ensures State() == Request(old(State()), word, loadOk)
      ensures seCache == old(seCache) && volumeBgm == old(volumeBgm) && volumeSe == old(volumeSe)
    {
      ghost var s0 := State();
      var w := Normalize(word);
      if w == [] {
      } else if w in voiceCache {
        voiceCache := voiceCache[w := volumeVoice];
        played := played + [VoicePlayed(w, volumeVoice)];
      } else if w in voiceFiles && loadOk {
        voiceCache := voiceCache[w := volumeVoice];
        played := played + [VoicePlayed(w, volumeVoice)];
      } else {
        pendingPlay := Some(w);
        if w !in generatingWords {
          generationQueue := generationQueue + [w];
          generatingWords := generatingWords + {w};
        }
      }
      assert State() == Request(s0, word, loadOk);
      RequestKeepsInv(s0, word, loadOk);
    }

    /** The worker's first critical section: pop the oldest queued word, if any. */
    method WorkerTake()
      requires Valid() && worker.None?
      modifies this
      ensures Valid()
      ensures State() == Take(old(State()))
      ensures seCache == old(seCache) && volumeBgm == old(volumeBgm) && volumeSe == old(volumeSe)
    {
      TakeKeepsInv(State());
      if generationQueue != [] {
        var w := generationQueue[0];
        generationQueue := generationQueue[1..];
        worker := if w != [] then Some(w) else None;
      }
    }

    /**
     * The worker's second critical section. `success` says whether synthesis and
     * `tts.save(path)` went through; then the clip is on disk.
     */
    method WorkerFinish(success: bool)
      requires Valid() && worker.Some?
      modifies this
      ensures Valid()
      ensures State() == Finish(old(State()), success)
      ensures seCache == old(seCache) && volumeBgm == old(volumeBgm) && volumeSe == old(volumeSe)
    {
      FinishKeepsInv(State(), success);
      var w := worker.value;
      if success {
        voiceFiles := voiceFiles + {w};
        readyQueue := readyQueue + [Completion(w, VoicePath(w))];
        generatingWords := generatingWords - {w};
      } else {
        generatingWords := generatingWords - {w};
      }
      worker := None;
    }

    /** One round of the worker loop: take, then process. */
    method WorkerRound(success: bool)
      requires Valid() && worker.None?
      modifies this
      ensures Valid()
      ensures State() == Voice.WorkerStep(old(State()), success)
      ensures seCache == old(seCache) && volumeBgm == old(volumeBgm) && volumeSe == old(volumeSe)
    {
      WorkerTake();
      if worker.Some? {
        WorkerFinish(success);
      }
    }

    /** `update()`: drain the finished entries in order; `loadOk[i]` is the i-th clip's load outcome. */
    method Update(loadOk: seq<bool>)
      requires Valid() && |loadOk| == |readyQueue|
      modifies this
      ensures Valid()
      ensures State() == Drain(old(State()), loadOk)
      ensures seCache == old(seCache) && volumeBgm == old(volumeBgm) && volumeSe == old(volumeSe)
    {
      ghost var s0 := State();
      var i := 0;
      while readyQueue != []
        invariant 0 <= i <= |loadOk| && |readyQueue| == |loadOk| - i
        invariant Drain(State(), loadOk[i..]) == Drain(s0, loadOk)
        invariant seCache == old(seCache) && volumeBgm == old(volumeBgm) && volumeSe == old(volumeSe)
        decreases |readyQueue|
      {
        ghost var before := State();
        var c := readyQueue[0];
        readyQueue := readyQueue[1..];
        if loadOk[i] {
          voiceCache := voiceCache[c.word := FreshVolume];
          if pendingPlay == Some(c.word) {
            played := played + [VoicePlayed(c.word, FreshVolume)];
            pendingPlay := None;
          }
        }
        assert State() == Deliver(before, loadOk[i]);
        assert loadOk[i..][1..] == loadOk[i + 1..];
        i := i + 1;
      }
      DrainKeepsInv(s0, loadOk);
    }

    /** `set_volume_bgm(v)`. */
    method SetVolumeBgm(v: real)
      requires Valid()
      modifies this
      ensures Valid()
      ensures volumeBgm == Clamp01(v)
      ensures State() == old(State()) && seCache == old(seCache) && volumeSe == old(volumeSe)
    {
      volumeBgm := Clamp01(v);
    }

    /** `set_volume_se(v)`: store the clamped level and apply it to every cached effect. */
    method SetVolumeSe(v: real)
      requires Valid()
      modifies this
      ensures Valid()
      ensures volumeSe == Clamp01(v)
      ensures seCache.Keys == old(seCache).Keys
      ensures forall f :: f in seCache ==> seCache[f] == volumeSe
      ensures State() == old(State()) && volumeBgm == old(volumeBgm)
    {
      volumeSe := Clamp01(v);
      var cache := seCache;
      var rest := cache.Keys;
      while rest != {}
        invariant rest <= cache.Keys && cache.Keys == seCache.Keys
        invariant forall f :: f in cache && f !in rest ==> cache[f] == volumeSe
        decreases rest
        modifies {}
      {
        var f :| f in rest;
        cache := cache[f := volumeSe];
        rest := rest - {f};
      }
      seCache := cache;
    }

    /** `set_volume_voice(v)`: store the clamped level and apply it to every cached clip. */
    method SetVolumeVoice(v: real)
      requires Valid()
      modifies this
      ensures Valid()
      ensures State() == Retune(old(State()), v)
      ensures seCache == old(seCache) && volumeBgm == old(volumeBgm) && volumeSe == old(volumeSe)
    {
      ghost var s0 := State();
      volumeVoice := Clamp01(v);
      var cache := voiceCache;
      var rest := cache.Keys;
      while rest != {}
        invariant rest <= cache.Keys && cache.Keys == voiceCache.Keys
        invariant forall w :: w in cache && w !in rest ==> cache[w] == volumeVoice
        decreases rest
        modifies {}
      {
        var w :| w in rest;
        cache := cache[w := volumeVoice];
        rest := rest - {w};
      }
      RetunedCache(s0, v, cache);
      voiceCache := cache;
      RetuneKeepsInv(s0, v);
    }

    /**
     * `play_se(filename)`: a cached effect plays at the volume it has; otherwise a missing
     * file does nothing, and a file that loads is cached at the effect volume and played.
     */
    method PlaySe(filename: string, loadOk: bool)
      requires Valid()
      modifies this
      ensures Valid()
      ensures old(filename in seCache) ==>
                seCache == old(seCache) && played == old(played) + [EffectPlayed(filename, old(seCache)[filename])]
      ensures old(filename !in seCache) && filename in soundFiles && loadOk ==>
                seCache == old(seCache)[filename := volumeSe] && played == old(played) + [EffectPlayed(filename, volumeSe)]
      ensures old(filename !in seCache) && !(filename in soundFiles && loadOk) ==>
                seCache == old(seCache) && played == old(played)
      ensures State() == old(State()).(log := played)
      ensures volumeBgm == old(volumeBgm) && volumeSe == old(volumeSe)
    {
      if filename in seCache {
        played := played + [EffectPlayed(filename, seCache[filename])];
        return;
      }
      if filename !in soundFiles {
        return;
      }
      if loadOk {
        seCache := seCache[filename := volumeSe];
        played := played + [EffectPlayed(filename, volumeSe)];
      }
    }
  }
}
