# Words Battles in Dafny

A verified model of the core of *Words Battles*, a vocabulary card battler written in
Python with pygame. The player fights a stage enemy by answering vocabulary cards: a
selection card asks for the word's meaning, a typing card asks for the word itself. The
model covers:

- **the sound manager** (`sound_manager.py`): the text-to-speech voice cache, which plays
  a word from memory, from a clip on disk, or queues it for a background worker and
  auto-plays it once the clip is ready; the effect cache; and the three volume setters;
- **the deck manager** (`DeckManager` in `main.py`): which words enter a run (words
  answered correctly more than ten times are kept back unless fewer than fifteen remain),
  dealing a hand, the discard pile, and graduation, in which cards answered correctly three
  times leave the active deck, come back as typing cards and are replaced from the card pool;
- **combat**: the player's and enemy's hit points, power-ups, the enemy's turn, and how an
  answer is judged;
- **the save file**: rank points, per-word mastery, upgrades and mixer volumes;
- **the game's stage flow**: rank points for a won battle, and when the bonus screen comes up;
- **three small screens**: the typing box, the word list's scroll position, and the
  two-click reset button.

The voice pipeline is a state machine over values (`Voice.VoiceState`). Each of its steps is
one critical section of the Python code: a request from the game loop, the worker taking a
word, the worker publishing its result, and the game loop delivering finished clips. The
class `Sound.SoundManager` performs these steps in place on fields named after the source's
fields. Each of its methods is proved to agree with the step function, so that what is
proved about the steps (the lock's invariant, first-in-first-out service, at most one
auto-play, the latest request winning) holds for the class. The deck follows the same
pattern. `Deck.Piles` is a snapshot of the deck manager. `Deck.Graduate` and
`Deck.Drawn` say what `process_mastery()` and `draw_hand()` do. `Deck.DeckManager`
carries out the source's loops on its fields. Cards are references into one map, so a
card in the hand and the same card in the active deck are the same object, as in Python.

Where the documentation and the code disagree, the model follows the code. The bonus
screen's docstring (`main.py:576`) says it comes up every three stages. `_on_next_stage`
(`main.py:1599`) shows it whenever the new stage number is odd and greater than one, that
is after every second stage. `Game.BonusFollows` and its lemmas state the code's rule.

Clips that `update()` loads for finished words are cached and played without
`set_volume`, so they play at the mixer's default level rather than at the voice volume.
The model keeps this: `Voice.Deliver` caches them at `FreshVolume` (1.0).

## Model

| member | source | states |
|---|---|---|
| Volume.Clamp01 | sound_manager.py:89 | the stored level is in 0..1; in-range values are kept, values below become 0 and values above become 1 |
| Volume.ClampIdempotent | sound_manager.py:100 | clamping an already clamped level changes nothing |
| Text.Strip | sound_manager.py:124 | `strip()` leaves a result that neither starts nor ends with white space |
| Text.TrimStartFacts | sound_manager.py:124 | the front trim removes exactly a leading run of white space and keeps the rest as a suffix |
| Text.TrimEndFacts | sound_manager.py:124 | the back trim removes exactly a trailing run of white space and keeps the rest as a prefix |
| Text.StripFacts | sound_manager.py:124-126 | the stripped word uses only characters of the input, is no longer, and is empty exactly when the input is all white space (the `if not word` case) |
| Text.NormalizeIdempotent | sound_manager.py:124 | normalizing a cache key again gives the same key |
| Text.NormalizeGivesKey | sound_manager.py:124-126 | every non-empty normalized word is a cache key |
| Text.CatCollides | sound_manager.py:124-136 | "Cat" and " cat " share the key "cat" and the path string assets/voice/cat.mp3 |
| Text.VoicePathInjective | sound_manager.py:135-136 | two different keys give different voice path strings |
| Text.LowerOfUpper | main.py:757 | lower-casing an upper-cased word gives the lower-cased word |
| Voice.Retune | sound_manager.py:98-102 | the voice level becomes the clamped value, every cached clip gets it, and nothing else changes |
| Voice.RetunedCache | sound_manager.py:100-102 | a cache with the same keys whose every clip is at the clamped level is the retuned cache |
| Voice.RequestKeepsInv | sound_manager.py:122-155 | `play_voice` keeps the lock's invariant: no key queued twice, `generating_words` equal to the queued words plus the worker's, every finished entry naming its own existing file, volume in range |
| Voice.TakeKeepsInv | sound_manager.py:162-164 | popping the oldest queued word keeps the invariant |
| Voice.FinishKeepsInv | sound_manager.py:176-188 | publishing or dropping the worker's word keeps the invariant |
| Voice.WorkerStepKeepsInv | sound_manager.py:157-169 | a full round of the worker loop keeps the invariant |
| Voice.DrainKeepsInv | sound_manager.py:48-62 | `update()` keeps the invariant |
| Voice.RetuneKeepsInv | sound_manager.py:98-102 | `set_volume_voice` keeps the invariant |
| Voice.SameKeySameRequest | sound_manager.py:124 | two spellings with the same key make the same request |
| Voice.CatAndSpacedCatCollide | sound_manager.py:124 | requesting "Cat" and " cat " has the same effect |
| Voice.BlankRequestIgnored | sound_manager.py:124-126 | a word of only white space changes nothing |
| Voice.MemoryHit | sound_manager.py:128-132 | a cached key is set to the voice volume and played; queue, in-progress set and auto-play target are untouched |
| Voice.DiskHit | sound_manager.py:134-147 | a clip on disk that loads is cached at the voice volume and played; one that fails to load falls through to generation |
| Voice.Miss | sound_manager.py:149-155 | a miss makes the key the auto-play target, plays nothing, and queues the key at the back unless it is already in progress |
| Voice.RepeatedRequestQueuedOnce | sound_manager.py:150-155 | requesting the same word twice queues it at most once and keeps the invariant |
| Voice.RequestQueuesOnce | sound_manager.py:152-155 | a request that queued its key makes the next request for that key queue nothing |
| Voice.QueueIsFifo | sound_manager.py:152-164 | requests only append at the back, the worker only removes the front, and publishing leaves the queue alone |
| Voice.TakeServesOldest | sound_manager.py:162-164 | the worker takes the oldest queued word, which stays in progress |
| Voice.SuccessPublishesOnce | sound_manager.py:176-183 | a successful synthesis publishes exactly one entry with the word's own file, which now exists, and releases the word |
| Voice.FailureReleasesWord | sound_manager.py:185-188 | a failed synthesis publishes nothing and releases the word |
| Voice.RetryAfterFailure | sound_manager.py:185-188 | after a failure, asking for the word again queues it again: no permanent lock-out |
| Voice.IdleWorkerInProgress | sound_manager.py:31-33 | with the worker idle, the words in progress are exactly the queued words |
| Voice.DrainNothing | sound_manager.py:51 | `update()` with nothing finished changes nothing |
| Voice.DrainEmptiesReady | sound_manager.py:50-52 | `update()` empties the hand-off queue and leaves the disk, generation queue and worker alone |
| Voice.DrainCachesLoaded | sound_manager.py:51-62 | after `update()` the cached keys are the earlier keys plus exactly the finished words whose clip loaded |
| Voice.DrainCacheValues | sound_manager.py:51-56 | after `update()` every word whose clip loaded is cached at the fresh clip's level 1.0, replacing any clip cached for it before; every other cached clip keeps its level |
| Voice.DrainPlaysOnlyTarget | sound_manager.py:57-60 | `update()` plays the auto-play target exactly when a finished clip for it loads, and then clears the target; otherwise it plays nothing |
| Voice.DrainPlaysNothing | sound_manager.py:57-60 | with no auto-play target, `update()` plays nothing |
| Voice.CompletionIsStoredAndCached | sound_manager.py:176-183 | a generated clip, once delivered, is both on disk and in memory |
| Voice.ServeFront | sound_manager.py:157-183 | one worker round plus `update()` caches the oldest queued word and plays it exactly when it is the auto-play target |
| Voice.LatestWins | sound_manager.py:150 | after two misses a then b, a is delivered first and cached unplayed; b is then played and the target cleared |
| Sound.SoundManager.constructor | sound_manager.py:11-46 | empty caches and queues, levels 0.3/0.6/0.8, an idle worker |
| Sound.SoundManager.PlayVoice | sound_manager.py:122-155 | the fields change as `Voice.Request` says and the invariant is kept |
| Sound.SoundManager.WorkerTake | sound_manager.py:160-164 | the worker's first locked block, as `Voice.Take` |
| Sound.SoundManager.WorkerFinish | sound_manager.py:171-188 | the worker's second locked block, as `Voice.Finish` |
| Sound.SoundManager.WorkerRound | sound_manager.py:157-169 | one loop of `_generation_worker`, as `Voice.WorkerStep` |
| Sound.SoundManager.Update | sound_manager.py:48-62 | `update()`'s loop, as `Voice.Drain` |
| Sound.SoundManager.SetVolumeBgm | sound_manager.py:87-90 | stores the clamped music level and changes nothing else |
| Sound.SoundManager.SetVolumeSe | sound_manager.py:92-96 | stores the clamped effect level and gives it to every cached effect, keeping the cached files |
| Sound.SoundManager.SetVolumeVoice | sound_manager.py:98-102 | stores the clamped voice level and gives it to every cached clip, as `Voice.Retune` |
| Sound.SoundManager.PlaySe | sound_manager.py:104-120 | a cached effect plays at its own level; a missing file does nothing; a file that loads is cached at the effect level and played |
| Cards.CardMode | main.py:66-68 | an absent mode and any spelling of "select" or "selection" give selection mode; any spelling of "typing" gives typing mode; "SELECT" never survives |
| Cards.NewCard | main.py:57-72 | a new card copies id, word, meaning and mastery (0 when absent), reads the mode, and is unanswered with nothing typed |
| Cards.Blanks | main.py:79-81 | "_ " repeated: twice as many characters as letters, alternating '_' and ' ' |
| Cards.DisplayText | main.py:74-81 | the word in selection mode; in typing mode the lead, a space and one "_ " per letter not yet typed; nothing in any other mode |
| Cards.FullyTypedHasNoBlanks | main.py:80-81 | a fully typed word shows the typed text and a space, with no blanks |
| Cards.OnAnswer | main.py:745-763 | the answer is ignored exactly when the battle is not in play or the index is past the hand, and is right exactly when the active card's rule accepts it |
| Cards.TypingIgnoresCaseAndSpaces | main.py:756-758 | typed answers with the same lower-cased, stripped form get the same verdict |
| Cards.ShoutedWordIsCorrect | main.py:757 | typing the word in capitals is correct |
| Cards.SelectionIsExact | main.py:753-755 | a selection answer that differs from the meaning in any way is wrong |
| Combat.Start | main.py:111-119 | a new player has 100 hit points plus the bought ones, is at full health, with the bought defense and attack and no time bonus |
| Combat.DamageTaken | main.py:123 | a hit costs at least 1 and at least the amount minus defense, and is one of the two |
| Combat.Hurt | main.py:121-127 | hit points fall by the damage taken but never below zero, reaching zero exactly when the damage covers them; nothing else changes |
| Combat.Healed | main.py:129-131 | hit points rise by the amount but never above the maximum; nothing else changes |
| Combat.Bonus | main.py:133-143 | every bonus keeps hit points within 0..maximum |
| Combat.BonusEffects | main.py:133-143 | Iron Wall +3 defense, Vitality +20 maximum and current hit points, Scholar +2 seconds of turn time, Sharp Pen +0.2 attack; any other name changes nothing |
| Combat.DefenseNeverHurts | main.py:123 | more defense never makes a hit cost more |
| Combat.HpAfter | main.py:121-127 | a series of hits leaves between zero and the starting hit points |
| Combat.KnockedOutEventually | main.py:121-127 | a player survives no more hits than they have hit points, because each hit costs at least one |
| Combat.ZeroStaysZero | main.py:125-126 | a knocked-out player stays at zero |
| Combat.Player.constructor | main.py:111-119 | the player's fields are `Start` of the bought stats |
| Combat.Player.TakeDamage | main.py:121-127 | returns the damage taken (at least 1) and updates the player as `Hurt` |
| Combat.Player.Heal | main.py:129-131 | updates the player as `Healed` |
| Combat.Player.ApplyBonus | main.py:133-143 | updates the player as `Bonus`, keeping hit points in range |
| Combat.Player.EffectiveTurnTime | main.py:145-147 | 15 seconds plus the time bonus |
| Combat.EnemyMaxHp | main.py:153 | an enemy past stage 0 has at least 100 hit points |
| Combat.Enemy.constructor | main.py:151-154 | a fresh enemy at full health with 100 + 30 per later stage hit points |
| Combat.Enemy.TakeDamage | main.py:157-160 | hit points fall but not below zero, and the enemy is reported beaten exactly when they reach zero |
| Combat.EnemyHit | main.py:824 | from stage 1 on the enemy hits for at least 25 |
| Combat.StagesGetHarder | main.py:824 | every stage the enemy hits 5 harder and has 30 more hit points |
| Combat.HandleEnemyTurn | main.py:822-836 | the player takes the stage's hit; the battle is lost exactly when the damage covers the player's hit points, and otherwise the enemy's attack is shown |
| Combat.FreshPlayerSurvivesThreeTurns | main.py:822-825 | a player without upgrades survives three stage-1 enemy turns with 25 hit points and falls to the fourth |
| Save.Default | main.py:204-218 | the defaults are valid, with no points, no mastery, no upgrade levels and the default volume table |
| Save.Mastered | main.py:227-230 | one more correct answer for that word and no other, and nothing else changes |
| Save.Purchase | main.py:242-248 | a purchase succeeds exactly when the points cover the cost, then spends them and raises only that upgrade; a failed purchase changes nothing |
| Save.PermanentStatsOf | main.py:250-257 | 10 hit points and 0.1 attack per level, 1 defense per level |
| Save.WithVolumes | main.py:267-268 | a missing volume table is filled with the defaults; an existing one is kept |
| Save.VolumeSet | main.py:271-276 | only the volume table changes, and it gains the channel |
| Save.VolumeRoundTrip | main.py:265-276 | reading a level back gives the clamped value set; other channels keep theirs |
| Save.MissingVolumesAreDefaults | main.py:265-269 | a save without a volume table reports 0.3, 0.6 and 0.8, and 0.5 for an unknown channel |
| Save.ProgressKeepsValid | main.py:227-248 | recording an answer, earning points and buying an upgrade keep the save valid |
| Save.VolumesKeepValid | main.py:265-276 | filling in and setting volumes keep every stored level in 0..1 |
| Save.TwoHpUpgrades | main.py:242-257 | buying the HP upgrade twice gives a new player 120 hit points |
| Save.ResetPlayerIsPlain | main.py:259-262 | after a reset a new player has no bought bonuses |
| Save.SaveManager.constructor | main.py:190-202 | the loaded file's data, or the defaults when there is none |
| Save.SaveManager.GetWordMastery | main.py:224-225 | the word's count, 0 if never answered |
| Save.SaveManager.UpdateWordMastery | main.py:227-230 | the data becomes `Mastered` and is saved |
| Save.SaveManager.AddRankPoints | main.py:232-234 | the points grow by the amount, nothing else changes, and the data is saved |
| Save.SaveManager.GetRankPoints | main.py:236-237 | the stored points |
| Save.SaveManager.GetUpgradeLevel | main.py:239-240 | the upgrade's level, 0 if never bought |
| Save.SaveManager.PurchaseUpgrade | main.py:242-248 | data and result as `Purchase`; the file is written only on success |
| Save.SaveManager.GetPermanentStats | main.py:250-257 | the stats `PermanentStatsOf` gives |
| Save.SaveManager.ResetData | main.py:259-263 | the data becomes the defaults and is saved |
| Save.SaveManager.GetVolume | main.py:265-269 | the channel's level; a missing table is filled in memory without saving |
| Save.SaveManager.SetVolume | main.py:271-276 | the data becomes `VolumeSet` and is saved |
| Deck.Without | main.py:324 | the cards of the deck that are not excluded, and only those |
| Deck.ClearVerdicts | main.py:328-329 | clearing marks keeps the set of cards |
| Deck.ClearVerdictsFacts | main.py:328-329 | each discarded card loses its mark and every other card is unchanged |
| Deck.Promote | main.py:361-362 | promoting keeps the set of cards |
| Deck.PromoteFacts | main.py:361-362 | each graduate becomes a typing card with mastery 0 and every other card is unchanged |
| Deck.SplitIsPartition | main.py:356-363 | the scan splits the active deck into stayers and graduates, losing and repeating nothing |
| Deck.SplitLength | main.py:356-363 | every scanned card either stays or graduates |
| Deck.SplitMembers | main.py:356-363 | a card graduates exactly when its mastery reached 3, and stays exactly when it did not |
| Deck.Room | main.py:366-375 | a refill takes no more than available, never overfills the deck past 10, and stops only when the deck is full or the source is empty |
| Deck.GraduationConservesCards | main.py:348-377 | graduation only moves cards among the active deck, the card pool and the graduated pool |
| Deck.GraduationKeepsSound | main.py:348-377 | graduation keeps every card in exactly one of the three piles and leaves hand and discard pile alone |
| Deck.GraduationFillsDeck | main.py:365-375 | after graduation the active deck holds 10 cards, or every card left; the stayers keep their order at the front |
| Deck.GraduationRules | main.py:355-375 | the card pool is used before the graduated pool; graduates are exactly the active cards with mastery 3 or more; they become typing cards with mastery 0, and no other card changes |
| Deck.GraduateWithEmptyPools | main.py:371-375 | with both pools empty the graduates come straight back behind the stayers |
| Deck.GraduateComesBackAsTyping | main.py:356-375 | with nothing left to draw on, a graduating card rejoins the active deck at once as a typing card with mastery 0 |
| Deck.ScanKeeps | main.py:356-357 | a card below the threshold stays in place |
| Deck.ScanGraduates | main.py:357-363 | a card at the threshold is removed from the scanned deck by `remove` and joins the graduates |
| Deck.ScanAdvances | main.py:356-363 | one step of the scan either keeps the card or removes, promotes and appends it |
| Deck.DealKeepsSound | main.py:335-336 | dealing an active card that is neither on the table nor discarded keeps the piles sound |
| Deck.RecycleKeepsSound | main.py:327-330 | emptying the discard pile and clearing marks keeps the piles sound |
| Deck.ClearMarks | main.py:328-329 | the loop clears the mark of every discarded card, as `ClearVerdicts` |
| Deck.Sift | main.py:352-363 | the scan loop leaves the stayers, the graduates in deck order, the promoted cards, and the graduated pool extended by the graduates |
| Deck.Deal | main.py:321-336 | `draw_hand` keeps the three decks; the hand keeps its cards and gains only active cards, up to the count; it falls short only when every active card is in it. The discard pile is shuffled back, with every discarded card's mark cleared, exactly when it is not empty and the fresh active cards (neither held nor discarded) are fewer than the cards still needed; otherwise the discard pile and all marks are untouched and every dealt card is fresh |
| Deck.AvailableIsFresh | main.py:324 | the list dealt from holds exactly the fresh cards, so it is empty exactly when none is fresh |
| Deck.DealStep | main.py:334-336 | dealing a card that is neither held nor discarded keeps the loop's invariant, using up one fresh card before any reshuffle |
| Deck.ReshuffleStep | main.py:325-330 | shuffling the discard pile back once no card is fresh happens only when the fresh cards fell short of the count, and clears every discarded card's mark |
| Deck.DealDone | main.py:323-333 | when the hand is full, or nothing is left to deal, the outcome is as `Drawn` says |
| Deck.TopUp | main.py:366-369 | a refill loop moves the front `Room` cards of its source to the back of the deck |
| Deck.FameMembers | main.py:291-296 | a word is a candidate exactly when answered correctly at most ten times, and in the hall of fame otherwise |
| Deck.FamePartition | main.py:291-296 | every word is a candidate or in the hall of fame, none lost or repeated |
| Deck.SampleSize | main.py:298-303 | the sample reaches fifteen words if the hall of fame has enough, and is empty when fifteen words are already eligible |
| Deck.CandidatesAsBuilt | main.py:298-303 | the sampled words are added only when fewer than fifteen are eligible and the hall of fame is not empty |
| Deck.CandidateCount | main.py:298-303 | with fifteen or more eligible words all of them are used; with fewer, there are fifteen candidates, or all the words |
| Deck.FamousOnlyWhenShort | main.py:286-303 | every candidate is a given word, and a hall-of-fame word is used only when fewer than fifteen are eligible |
| Deck.SplitByFame | main.py:288-296 | the filtering loop builds the eligible and hall-of-fame lists in order |
| Deck.Opening | main.py:305-319 | one card per shuffled candidate, the first 10 in the active deck and the rest in the card pool, in shuffled order, with empty mastered pool, hand and discard pile |
| Deck.OpeningDeal | main.py:305-312 | the opening piles are sound and hold the shuffled candidates' cards in order |
| Deck.DeckManager.constructor | main.py:281-319 | the deck manager starts sound with the opening piles of the shuffled candidates |
| Deck.DeckManager.DrawHand | main.py:321-336 | the fields change as `Drawn` says, reshuffling exactly when the source does, and stay sound |
| Deck.DeckManager.ReturnHandToDiscard | main.py:338-341 | the hand goes onto the discard pile and is emptied; the piles stay sound |
| Deck.DeckManager.ReloadHand | main.py:343-346 | after a reload the hand holds five active cards when there are five; it falls short only when all active cards are in it |
| Deck.DeckManager.ProcessMastery | main.py:348-377 | the fields become `Graduate` of the old state, which returns the graduates and the newly joined cards, and stay sound |
| Game.RewardGrows | main.py:1568-1572 | a win at stage 1 is worth 160 points and each later stage 10 more |
| Game.RunPointsClosedForm | main.py:1568-1572 | winning stages 1 to n earns 150n + 5n(n+1) points |
| Game.BonusOnOddStages | main.py:1596-1599 | the bonus screen comes before exactly the odd stages from 3 on, and never before two stages in a row |
| Game.BonusEverySecondStage | main.py:1598-1599 | the bonus comes before stages 3 and 5 and not before stage 4 |
| Game.BonusCount | main.py:1594-1609 | reaching stage n has shown the bonus screen (n - 1) / 2 times |
| Game.Game.constructor | main.py:1472-1509 | stage 1, the title screen, a player with the bought upgrades, no battle results yet |
| Game.Game.OnStartGame | main.py:1511-1516 | back to stage 1 with a fresh player carrying the bought upgrades, in battle |
| Game.Game.OnBattleEnd | main.py:1565-1592 | the save gains the stage's reward and is written, the deck graduates as `Graduate` says, and the result screen shows the graduates and the cards that joined |
| Game.Game.OnNextStage | main.py:1594-1609 | the stage goes up by one; the bonus screen comes up when `BonusFollows`, otherwise the next battle |
| Game.Game.OnBonusSelected | main.py:1611-1613 | the next battle starts at the same stage |
| Game.Game.OnGameOver | main.py:1615-1624 | the game-over screen, with the stage reached kept |
| Screens.BackspaceFacts | main.py:403-404 | Backspace on an empty box leaves it empty, and otherwise removes exactly the last character |
| Screens.BackspaceUndoesKey | main.py:403-406 | Backspace undoes typing one character |
| Screens.TypeAllAppends | main.py:405-406 | typing a word key by key appends exactly that word |
| Screens.InputBox.constructor | main.py:392-397 | a new box is empty |
| Screens.InputBox.HandleEvent | main.py:399-407 | Return submits the text without clearing it; any other event submits nothing and edits the text |
| Screens.MaxScrollFacts | main.py:1188-1190 | six words or fewer cannot scroll; from seven on, the bottom of the list reaches the bottom of the screen |
| Screens.Scrolled | main.py:1212-1214 | the scroll position stays within 0..max_scroll |
| Screens.ScrolledFacts | main.py:1212-1214 | the wheel moves 40 pixels a notch where that stays in range and otherwise stops at the top or bottom |
| Screens.WheelRoundTrip | main.py:1213-1214 | within range, a notch down and a notch up cancel out |
| Screens.WordListScreen.constructor | main.py:1187-1190 | the list starts at the top with `max_scroll` for its length |
| Screens.WordListScreen.OnWheel | main.py:1212-1214 | the new position is `Scrolled` of the old one |
| Screens.ResetClick | main.py:1356-1361 | a click resets the save exactly when the button was armed, and arms it exactly when it was not |
| Screens.ClicksFromFresh | main.py:1356-1361 | n clicks on a fresh screen reset the save n / 2 times and leave the button armed exactly when n is odd |
| Screens.SettingsScreen.constructor | main.py:1333 | the button starts unarmed |
| Screens.SettingsScreen.OnReset | main.py:1356-1361 | the first click arms the button; the second resets and saves the data and disarms it |

## Left out

- Threads and the lock: each locked block is one atomic step, and interleavings are sequences of steps. The unlocked `pending_play` write in `play_voice` is treated as part of the request step.
- Speech synthesis (gTTS) and the network: the worker's attempt becomes a `success` flag.
- The pygame mixer: playing a clip is an entry in a play log, and loading a file is a `loadOk` flag. `play_bgm` and `stop_bgm` only drive the music player and are not modelled.
- Text.VoicePath: voice files are identified by their path strings, always joined with '/'. Windows separators, `.` and `..` segments, and the way `os.path.join` discards the prefix for a key starting with '/' are not modelled. So two keys such as "cat" and "./cat" have different paths here but name the same file.
- The file system: the files under `assets/voice` and `assets/sounds` are sets of names. Writing the save file is the `stored` field, and reading it is the constructor's `loaded` argument (JSON parsing is not modelled).
- Floating point: volumes and the attack multiplier are exact reals. `int(base_damage * attack_multiplier)` in `handle_correct`, the scrollbar's drag ratios and the volume sliders are not modelled.
- `handle_correct` and `handle_wrong` (damage, mastery counting and messages after a verdict) are not modelled. `Cards.OnAnswer` stops at the verdict.
- Randomness: `random.choice` is an arbitrary choice (`:|`). The results of `random.sample` and `random.shuffle` are constructor parameters constrained to be a sample and a permutation. Their distribution is not modelled.
- Drawing, fonts, buttons, hover state, timers and the screens' constructors are not modelled. This includes `Battle.__init__`, which clears the hand and discard pile and deals a hand. The game's title, word-list, shop and settings navigation and `_on_restart` are not modelled either.
- Cards.DisplayText: requires a non-empty word for a typing card with nothing typed. For such a card the source evaluates `self.word[0]` (`main.py:79`) and raises IndexError; that crash is not modelled, and `Cards.Lead` carries the same requirement.
- Card fields used only for display (`level`, `part_of_speech`, `rect`, `selected`) are dropped.
- Text.Lower: `str.lower()` and `str.upper()` are modelled for ASCII letters only; Python's full Unicode case mapping is not.
- Save.SaveData: mastery is keyed by the word id rather than its decimal string, a one-to-one renaming.
- Save.SaveManager.GetPermanentStats: requires a valid save (no negative upgrade level), which the source does not check, because the stats are natural numbers here.
- Game.Game.constructor: requires a valid save and a sound deck, which every save the game writes and every deck the deck manager builds satisfy.
- Game.Game.OnStartGame: also sets the battle screen, which `_start_battle` does. Setting up the battle itself is not modelled.
