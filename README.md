# Rhythm memory game: the game session

This project models the `Game` class of a browser rhythm game and proves
properties of the model. In each level the game shows a grid of eight
symbols, then plays a beat pattern and lights the cells one per beat.

The canonical version lives in `app.js`. Its session works like this:

- It takes its parameters from a tempo table and a partial parameter merge.
- It generates every level up front. A level's symbols are the first
  `count` entries of a Fisher-Yates shuffle of the session pool, and its
  grid is those symbols padded to eight and shuffled again.
- It runs a lookahead scheduler, re-armed every 25 ms. The scheduler
  schedules each beat's voices (A-F, with the drum pattern D D E D)
  slightly ahead of the audio clock.
- It queues a visual callback for each beat. At beat 0 the callback shows
  the grid, at beat 8 it shows the action prompt, and in beats 8-15 it
  lights cell `beat - 8`.
- One tempo after the scheduler moves past the last beat of the last
  level, it finishes. That scheduler iteration may run up to the 0.1 s
  lookahead before the beat sounds.

An older variant in `game.js` differs in eight ways:

- It samples the grid with replacement.
- Its visual callbacks read the current level when they fire.
- It finishes on the spot, inside the scheduler loop.
- It updates the screen only while playing.
- Its `pause` leaves the pending tick in place.
- Its `finishGame` does not call `stop`, so the tick stays armed
  (`OldGame.Game.FinishGame`).
- Its `start` calls a method that `game.js` never defines, so it aborts
  before the first scheduler run (`OldGame.Game.StartAsWritten`; see
  "## Findings").
- Its parameters have no pool type: the session pool is always the first
  `poolSize` animals (`Levels.OldSessionPool`; see "## Left out").

Modules:

- `Settings` holds the tempo table, the parameters and the merge.
- `Randomness` holds the random stream. Every `Math.random()` result is
  the next entry of a caller-supplied stream of reals in [0, 1).
- `Pattern` holds the per-beat voices.
- `Timeline` holds the beat clock.
- `Levels` holds the level generator, both variants.
- `Display` holds the grid, the lit cells and the status line.
- `AppGame` holds the canonical session.
- `OldGame` holds the older session.

The audio clock is the parameter `now`. Scheduled voices go to an append-only
log. Timer callbacks are queued messages that `Deliver` fires one at a time.
Scheduler ticks are handles in a set.

A reader might expect three things that the code does not do. The model
follows the code:

- One might expect the scheduler loop to stop once the finish is queued.
  The code keeps looping, and `scheduleBeat` stays silent past the last
  level.
- One might expect every grid to have 8 slots. In `app.js` a fixed count
  above 8 gives a longer grid, of `max(8, count)` slots.
- One might expect every level to have at least 2 symbols. A fixed count
  of 1, or a pool of 1, gives 1.

## Model

| member | source | states |
|---|---|---|
| Settings.Tempo | app.js:131-137 | every speed 1-5 has a tempo, between 0.22 and 0.5 seconds per beat |
| Settings.FasterIsShorter | app.js:131-137 | a higher speed setting gives a strictly shorter beat |
| Settings.Merge | app.js:167-168 | each supplied field replaces the current one; each field not supplied keeps its value |
| Randomness.Scale | app.js:260 | `Math.floor(r * k)` for `r` in [0,1) is an index below `k` and is the floor of `r * k` |
| Randomness.RandomSource.Below | app.js:260 | one `Math.random()` draw consumed, turned into `floor(draw * k) < k` |
| Pattern.DrumVoice | app.js:310-317 | sub-beat `s` plays E when `s % 4 == 2` and D otherwise |
| Pattern.BeatTriggers | app.js:294-320 | a beat plays 3 voices, plus 2 whistles in the first half and a cymbal on odd beats; the metronome comes first, at the beat time |
| Pattern.DrumOnBeat | app.js:307-320 | the first drum of a beat is E exactly on odd beats; the second is always D |
| Pattern.BeatTriggersSpec | app.js:294-320 | voice `v` sounds at time `t` iff: A at the beat; B and C at the beat in beats 0-7; F and E at the beat on odd beats; D at the beat on even beats; D half a tempo later on every beat |
| Timeline.NextNote | app.js:276-281 | `nextNote` adds exactly one tempo and keeps the beat in 0..15 |
| Timeline.StepsClosedForm | app.js:276-281 | after `n` calls, time is `+ n * tempo`, beat is `(beat + n) % 16` and level is `+ (beat + n) / 16` |
| Timeline.WrapsOncePer16 | app.js:278-281 | 16 calls return to the same beat one level up, and exactly one of them wraps, the one leaving beat 15 |
| Timeline.FirstLevelTiming | app.js:175-177 | beat `k` of level 1 sounds `0.5 + k * tempo` seconds after the start |
| Timeline.StepsCompose | app.js:276-281 | `m` calls of `nextNote` followed by `n` more are `m + n` calls, so the beat clock does not depend on how ticks divide the beats |
| Timeline.TickAudioSplit | app.js:269-272 | the voices of `m + n` loop iterations are those of the first `m`, then those of `n` more from where they left the clock |
| Timeline.BudgetDecreases | app.js:269-272 | each scheduler iteration decreases a natural-number bound on the remaining ones, since the tempo is positive, so the loop ends |
| Levels.SourcePool | app.js:118-129 | each symbol set has its fixed length (18 or 8) and no repeats |
| Levels.Take | app.js:226 | `slice(0, n)` is the first `min(n, length)` elements |
| Levels.ShuffledPermutes | app.js:258-264 | the shuffle is a permutation (same multiset) |
| Levels.PassKeepsSuffix | app.js:259-262 | the swap loop from index `i` down never touches elements above `i` |
| Levels.PassIsShuffled | app.js:259-262 | the in-place swap loop computes the shuffle |
| Levels.ShuffleArray | app.js:258-264 | `shuffleArray` leaves the array holding the shuffle of its old contents and consumes one draw per index from the last down to 1 |
| Levels.LevelCount | app.js:229-242 | fixed mode gives `min(fixedCount, poolSize)`; increasing mode gives `min(8, i + 2, poolSize)`; random mode gives a value in [2,8] capped by `poolSize`; the count is between 1 and `poolSize` |
| Levels.Padded | app.js:245-248 | padding keeps the symbols as a prefix and reaches `max(8, count)` slots |
| Levels.PaddedFromAnimals | app.js:245-248 | every slot the padding adds holds one of the level's symbols |
| Levels.PaddedElements | app.js:245-248 | the padded grid holds exactly the level's symbols: padding adds none and drops none |
| Levels.PadAppGrid | app.js:245-248 | the padding `while` loop consumes one draw per added slot and computes the specified padding |
| Levels.Sampled | game.js:122-125 | sampling gives exactly `n` slots, each one of the level's symbols |
| Levels.SampledMayOmit | game.js:122-125 | sampling with replacement can miss a symbol: all-zero draws fill every slot with the first one |
| Levels.LevelSymbols | app.js:229-243 | choosing a level's symbols consumes the count draw, if any, then one shuffle's draws |
| Levels.ChosenSymbols | app.js:229-243 | a level's symbols obey the count rule, come from the session pool without repeats, and number at least 1 |
| Levels.ChooseSymbols | app.js:229-243 | the count branch, the copy, `shuffleArray` and `slice` produce the specified symbols with the specified draws |
| Levels.AppSessionPool | app.js:223-226 | the session pool is the first `poolSize` symbols of the chosen set, without repeats |
| Levels.AppGrid | app.js:245-249 | the padded grid consumes one draw per padded slot, then one shuffle's draws |
| Levels.AppGridCovers | app.js:245-249 | a padded grid has `max(8, count)` slots, holds only the level's symbols, and holds every one of them |
| Levels.FillAppGrid | app.js:245-249 | the padding loop, then `shuffleArray` on the padded grid, compute the specified grid |
| Levels.AppLevelShape | app.js:228-255 | every padded level obeys the symbol rule and the grid coverage |
| Levels.AppLevelsShape | app.js:221-256 | `generateLevels` yields exactly `totalLevels` levels, each well formed for its level number |
| Levels.MakeAppLevel | app.js:229-254 | one loop iteration builds the specified level |
| Levels.MakeAppLevels | app.js:221-256 | the level loop builds the specified levels in order, each drawing after the previous one |
| Levels.OldSessionPool | game.js:99 | the earlier session pool is the first `poolSize` animals, without repeats |
| Levels.OldLevelShape | game.js:101-131 | every sampled level obeys the symbol rule, has exactly 8 slots, and holds only its symbols |
| Levels.OldLevelsShape | game.js:96-132 | the earlier `generateLevels` yields exactly `totalLevels` sampled levels |
| Levels.FillOldGrid | game.js:122-125 | the 8-iteration `for` loop computes the specified sample and consumes 8 draws |
| Levels.MakeOldLevel | game.js:102-130 | one iteration of the earlier loop builds the specified level |
| Levels.MakeOldLevels | game.js:96-132 | the earlier level loop builds the specified levels in order |
| Display.LitCells | app.js:351-359 | exactly one cell, `beat - 8`, is lit in beats 8-15; none is lit otherwise |
| Display.BeatScreen | app.js:334-359 | beat 0 writes the level, the total and the preparation prompt, then the level's grid when the level exists (otherwise the update stops); beat 8 writes the action prompt; every completed update sets the lit cells for the beat; nothing else changes |
| Display.RenderShowsGrid | app.js:362-364 | a rendered cell shows the grid's symbol at that index |
| Display.Panel.constructor | app.js:161-164 | the screen starts empty, unlit and waiting |
| Display.Panel.RenderGrid | app.js:362-369 | `renderGrid` writes `icons[k]` into cell `k`, or the missing-value text past the end |
| Display.Panel.Light | app.js:351-359 | the clear-then-light loop leaves exactly the flags of the beat |
| Display.Panel.ShowBeat | app.js:334-359 | the screen after the update is the specified one |
| Display.Panel.ShowComplete | app.js:380 | the status shows completion; the grid, the lit cells and the counters stay |
| AppGame.Delay | app.js:323-326 | the visual delay is never negative, and is the time to the beat in ms, clamped at 0 |
| AppGame.FinishOnlyAtEnd | app.js:276-287 | from a session start, no finish is queued before the last beat of the last level, and exactly one is queued by the step leaving it |
| AppGame.FinishOnStep | app.js:276-287 | the step leaving session step `k` queues a finish callback exactly when `k` is the last beat of the last level |
| AppGame.SessionVisuals | app.js:289-326 | every beat `k` of the session queues its visual callback, carrying level `1 + k / 16` and beat `k % 16` |
| AppGame.SessionAudio | app.js:289-320 | step `k` of a session plays beat `k % 16`'s voices at `start + 0.5 + k * tempo` while within the session, and nothing after |
| AppGame.TickDeferredSplit | app.js:266-327 | the callbacks of `m + n` loop iterations are those of the first `m`, then those of `n` more from where they left the clock |
| AppGame.LabelsNow | app.js:289-326 | the audio time a tick runs against sets only the callbacks' delays: which level and beat each visual carries, and which finishes are queued, do not depend on it |
| AppGame.FinishesNow | app.js:276-287 | the number of finishes queued does not depend on the audio time |
| AppGame.FinishesSplit | app.js:266-287 | the finishes of `m + n` iterations are those of the first `m` plus those of the `n` after them |
| AppGame.QuietLevel | app.js:276-287 | fewer than 16 iterations from the first beat of a level queue no finish |
| AppGame.SessionFinishQueued | app.js:276-287 | for any number of iterations of a session: a finish is queued iff the clock has moved past the last beat of the last level, and exactly one until it has moved past one more level |
| AppGame.SessionLabels | app.js:289-326 | once past the last beat of the last level, every beat of every level has queued its visual with its level and beat, whatever the audio time |
| AppGame.CoversLastBeat | app.js:269-272 | a scheduler run at `now` that leaves the clock at or after `now + 0.1` has moved past every beat due before then, the last beat of the last level included |
| AppGame.TickPlays | app.js:269-272 | one more tick's voices extend the session's voices to those of `steps + n` iterations |
| AppGame.TickQueues | app.js:269-327 | one more tick's callbacks, queued against its own audio time, extend the session's callbacks to those of `steps + n` iterations, up to delays |
| AppGame.SessionTick | app.js:266-274 | a tick of a playing session keeps the clock, the voices and the callbacks equal to those of one run of `steps + n` iterations from the first beat |
| AppGame.SessionTicks | app.js:266-274 | ticks at any sequence of audio times leave the clock, voices and callbacks of one run of `steps` iterations from the first beat |
| AppGame.PlayTicks | app.js:172-274 | `start`, then ticks at any audio times: a finish is queued iff the ticks have moved past the last beat of the last level (exactly one until a level later), every beat of every level has then queued its visual, and a last tick within 0.1 s of the last beat guarantees it |
| AppGame.VisualEffect | app.js:329-332 | `handleVisuals` changes nothing unless the session is playing or finished, or for a level past the last one |
| AppGame.LastCellLit | app.js:276-332 | the last beat of the last level is queued with its own level and lights cell 7, before or after the finish |
| AppGame.Game.constructor | app.js:140-165 | a new game is idle, with the default parameters, tempo 0.4, level 0, beat 0 and nothing queued |
| AppGame.Game.SetParams | app.js:167-170 | the parameters are merged and the tempo follows the table |
| AppGame.Game.Stop | app.js:193-197 | `stop` sets idle and cancels the tick `timerId` holds, so no tick stays pending |
| AppGame.Game.Pause | app.js:199-205 | from playing: paused, `pauseTime = now`, tick cancelled; otherwise nothing changes; the beat clock is untouched |
| AppGame.Game.Scheduler | app.js:266-274 | not playing: nothing changes. Playing: it schedules exactly the beats due before `now + 0.1`, in order, each at its pre-increment time. Afterwards the next beat is at or after `now + 0.1`, and the tick is re-armed |
| AppGame.Game.ScheduleDue | app.js:269-272 | the `while` loop runs `n` iterations: clock advanced `n` steps, the logs extended by those steps' voices and callbacks |
| AppGame.Game.ScheduleNext | app.js:270-271 | one iteration schedules the current beat, then advances the clock |
| AppGame.Game.NextNote | app.js:276-287 | the clock advances one step; a finish callback `tempo * 1000` ms later is queued exactly when the level passes the last one |
| AppGame.Game.ScheduleBeat | app.js:289-327 | past the last level nothing happens; otherwise the beat's voices are logged and one visual callback is queued with the captured level |
| AppGame.Game.GenerateLevels | app.js:221-256 | the levels are the specified padded levels |
| AppGame.Game.Start | app.js:172-182 | playing, level 1, beat 0, first beat at `now + 0.5`, fresh levels, parameters kept, one tick armed |
| AppGame.Game.Restart | app.js:184-191 | `restart(true)` only stops, cancelling the pending tick; `restart(false)` stops, regenerates the levels and arms exactly one new tick |
| AppGame.Game.Resume | app.js:207-219 | from paused: playing, the next beat shifted by `now - pauseTime`, then the scheduler runs; otherwise nothing changes |
| AppGame.Game.FinishGame | app.js:377-381 | stopped, finished, completion shown with the grid and lit cells kept, no tick pending |
| AppGame.Game.HandleVisuals | app.js:329-360 | the screen becomes the specified effect of the beat |
| AppGame.Game.Tick | app.js:273 | a firing tick runs the scheduler; at most one tick is ever pending |
| AppGame.Game.Deliver | app.js:284-326 | a visual callback updates the screen for its captured level; a finish callback finishes the session and leaves the grid and lit cells as they were |
| OldGame.SessionFinishes | game.js:153-161 | the session has finished exactly once the scheduler has moved past the last beat of the last level |
| OldGame.LastStepFinishes | game.js:153-161 | the session has finished after the step leaving the last beat of the last level and not before, and that step moves the level one past the last |
| OldGame.OldVisualEffect | game.js:242-244 | `handleVisuals` changes nothing unless playing, or for a level past the last one |
| OldGame.LastCellDark | game.js:153-244 | the last beat's callback is queued, but the same iteration finishes the session and moves the level past the last one, so it changes nothing and cell 7 stays dark |
| OldGame.LiveCount | game.js:168-239 | every beat within the session queues exactly one callback |
| OldGame.LastLiveQueued | game.js:168-239 | the session queues one callback per beat, and the last one carries beat 15 and the last beat's delay |
| OldGame.TickLiveSplit | game.js:142-240 | the callbacks of `m + n` loop iterations are those of the first `m`, then those of `n` more |
| OldGame.FinishedWithinSplit | game.js:153-166 | the session finished within `m + n` iterations iff it did within the first `m` or within the `n` after them |
| OldGame.LiveBeats | game.js:168-239 | whatever the audio time, the callbacks of `n` iterations carry beats 0-15 in turn, one per beat of every level, and none past the last level |
| OldGame.TickBeats | game.js:146-149 | one more tick's callbacks carry the beats that follow the session's earlier ones |
| OldGame.TickFinishes | game.js:153-166 | a tick of a still-playing session finishes it iff it takes the session past the last beat of the last level |
| OldGame.SessionTick | game.js:142-151 | the pending tick, if any, keeps the clock, voices, beats, state and status those of `steps + n` iterations; after finishing it fires once more and does nothing |
| OldGame.SessionTicks | game.js:142-151 | ticks at any sequence of audio times leave the clock, voices, beats, state and status of one run of `steps` iterations |
| OldGame.PlayTicks | game.js:50-166 | corrected `start`, then ticks at any audio times: finished and complete iff the ticks have moved past the last beat of the last level, one callback per beat reached carrying beats 0-15 in turn, and a last tick within 0.1 s of the last beat guarantees the finish |
| OldGame.Game.constructor | game.js:18-43 | a new game is idle, with the default parameters, tempo 0.4 and nothing queued |
| OldGame.Game.SetParams | game.js:45-48 | the parameters are merged and the tempo follows the table |
| OldGame.Game.Stop | game.js:72-76 | idle, the tick `timerId` holds is cancelled |
| OldGame.Game.Pause | game.js:78-83 | from playing: paused, `pauseTime = now`, and the tick stays pending; otherwise nothing changes |
| OldGame.Game.Scheduler | game.js:142-151 | as in the canonical version; in addition, the session becomes finished and the status complete exactly when an iteration passes the last level, and the tick is re-armed even then |
| OldGame.Game.ScheduleDue | game.js:146-149 | the `while` loop runs `n` iterations with their voices, callbacks and finishing |
| OldGame.Game.ScheduleNext | game.js:147-148 | one iteration schedules the current beat, then advances the clock, possibly finishing |
| OldGame.Game.NextNote | game.js:153-166 | the clock advances one step; passing the last level finishes the session at once |
| OldGame.Game.ScheduleBeat | game.js:168-240 | past the last level nothing happens; otherwise the beat's voices are logged and one callback carrying only the beat is queued |
| OldGame.Game.GenerateLevels | game.js:96-132 | the levels are the specified sampled levels |
| OldGame.Game.StartAsWritten | game.js:50-61 | playing, level 1, beat 0, first beat at `now + 0.5`, fresh levels, and no tick armed and nothing scheduled |
| OldGame.Game.Start | game.js:50-61 | as written, but with the scheduler reached: one tick armed |
| OldGame.Game.Restart | game.js:63-70 | `restart(true)` only stops, cancelling the pending tick; `restart(false)` stops, regenerates the levels and arms exactly one new tick; the screen is unchanged |
| OldGame.Game.Resume | game.js:85-94 | from paused: playing, the next beat shifted by `now - pauseTime`, then the scheduler; otherwise nothing changes |
| OldGame.Game.FinishGame | game.js:311-314 | finished and completion shown with the grid and lit cells kept, without cancelling the tick |
| OldGame.Game.HandleVisuals | game.js:242-293 | the screen becomes the specified effect, acting only while playing |
| OldGame.Game.Tick | game.js:142-150 | a tick left over from `pause` finds the session not playing and changes nothing but its own removal |
| OldGame.Game.Deliver | game.js:237-239 | a callback updates the screen for its beat and the level current when it fires |
| OldGame.StalledStart | game.js:50-61 | a game started as written is playing, yet no tick is pending and nothing is scheduled |

## Left out

- The synthesis engine (the `AudioManager` class, `audio.js`). Only the `playA`...`playF(time)` calls are modelled, as a log of triggers. Oscillators, envelopes and noise are floating-point audio work.
- `getCurrentTime()` is the parameter `now`. It is taken as constant during one scheduler run; the source re-reads it on each loop iteration, and the clock only moves forward.
- `await this.audio.init()` in `start` is left out; `start` is modelled from the point where it resumes.
- Colours and prompt strings, the `pop-in` reflow, `console.log` and the end-screen overlay timeout in `app.js` `finishGame`. These are presentation only.
- OldGame.Game.FinishGame: the delayed `alert` and click on the restart button (game.js:315-319) are dropped. The click is not presentation: it hands control to the page's restart handler, which stops the session (state idle, tick cancelled, start screen shown) about a second after it finishes. The model leaves the session `Finished`, with the tick armed, because that handler belongs to the `App` class, which is not part of this model.
- The `App` class (DOM event binding and screen switching) and `index.html` are not part of this model.
- `renderLoop`, `requestAnimationFrame` and `cancelAnimationFrame` are left out: the animation frame only re-requests itself and changes no game state.
- Timer delays: queued callbacks are a sequence, and `Deliver(k)` may fire any of them. The model does not order callbacks by their delays.
- AppGame.PlayTicks, OldGame.PlayTicks: a session is driven by its ticks alone; no queued callback runs between them, so a delivered finish does not stop the ticks there. The callbacks are stated up to their delays.
- Time is exact `real` arithmetic, not IEEE-754 doubles.
- The distribution of `Math.random()` is left out; only its range [0, 1) is used.
- Settings.Speed: speeds outside 1..5 are excluded by the type. With them the table gives `undefined` and every time becomes `NaN`.
- Levels.Usable: `generateLevels` requires `poolSize >= 1` and `fixedCount >= 1`, the range the settings sliders allow (2-18 and up). With a count of 0 the source fills the grid with `undefined`, which is not modelled.
- Parameters are integers; the `parseInt` of a string `fixedCount` is not modelled.
- `game.js` parameters have no pool type. Its session pool always comes from the animals and ignores the `poolType` field.
- OldGame.Game.Restart: it uses the corrected `Start`, which reaches the scheduler. As written, `restart(false)` aborts at the same call as `start`; `StartAsWritten` covers that path.

## Findings

| source | as written | input that shows it | evidently intended | confidence | as-written member | corrected member |
|---|---|---|---|---|---|---|
| game.js:57 | `start` calls `this.updateVisualsClean()`, which the class does not define. The call throws after the state is set to playing, so `this.scheduler()` never runs and no tick is armed | any `start`, e.g. a new game with the default parameters: it is playing with no tick pending and nothing scheduled, until a pause and resume | `start` reaches the scheduler and arms its tick, as `app.js:172-182` does | high; not executed | OldGame.Game.StartAsWritten, OldGame.StalledStart | OldGame.Game.Start |
| game.js:160, game.js:238, game.js:243 | the last beat's callback reads `this.currentLevel` when it fires and acts only while playing. The same loop iteration that queued it has already moved the level past the last one and set the state to finished | `totalLevels = 1`: beat 15 of level 1 is queued, `nextNote` sets level 2 and finishes, and the callback changes nothing, so cell 7 is never lit | every action beat lights its cell, the last one included, as `app.js:284`, `app.js:292` and `app.js:331` do | high; not executed | OldGame.LastCellDark | AppGame.LastCellLit |
