# Word bomb: a verified model of the game core

This project models the core of a two-player, browser-based "word bomb" game.
Players take turns. The player holding the bomb must type a dictionary word
containing the current prompt (a short letter fragment) before the countdown
ends. A valid word passes the bomb and a new prompt. A timeout costs the holder
one life. A game ends when either player reaches zero lives. An optional
Valentine mode hands player 1 the fragments of "WILL YOU BE MY VALENTINE?" one
round after another and then hands player 2 "YE" ("YES!"). Answering "YE"
raises a success flag that every browser shows.

The model covers five source files, one Dafny module each:

- **GameUtils** (`game_utils.dfy`, src/lib/gameUtils.ts): the dictionary set,
  the playable-word filter, `isValidWord`, the capped counting loop
  `countWordsWithPrompt`, and the random prompt search `getRandomPrompt` with
  its retry loop. It also has `getPromptByDifficulty`.
  - The two counting and search loops are methods with loop invariants.
  - Each is proved equal to a recursive specification function: `CountContaining` and `Search`/`Attempt`.
  - The shape of those functions' results is proved as lemmas.
  - `isValidWord`'s three checks are the definition `GameUtils.IsValidWord` itself: the cleaned word is longer than two letters, contains the upper-cased prompt, and is in the dictionary set.
- **GameService** (`game_service.dfy`, src/services/gameService.ts):
  - `getNextPrompt`, the Valentine prompt schedule.
  - The stored room row as the class `Room`, one field per column.
  - One method per service call. Its `modifies` clause names exactly the columns that call's update writes.
- **GameTimer** (`game_timer.dfy`, src/hooks/useGameTimer.ts): the countdown
  cell as the class `Clock`. One run of the effect is one `Step`. A countdown
  driven to its timeout is proved to tick exactly `duration` times.
- **GameRoom** (`game_room.dfy`, src/hooks/useGameRoom.ts): one browser's view
  of the room as the class `Client`.
  - Its local copies of the row and the `syncState` mapping.
  - The role guards in front of each service call.
  - The conditions under which the local countdown runs.
  - `isGameOver` and `winner`.
  - Three end-to-end scenarios: a one-life timeout, and the full Valentine proposal in two parts.
- **GameBoard** (`game_board.dfy`, `getPotatoSprite` in
  src/components/game/gameBoard.tsx): the bomb's burn level, in exact
  arithmetic.

Two small support modules hold shared vocabulary:

- **Basics**: `Option` and `Min`.
- **Text**: JavaScript's `toUpperCase`, `trim` and `includes` over `seq<char>`.

Randomness, the word list and the backend are modelled as follows.

- `Math.random()` is an oracle `rand: nat -> [0, 1)`: call number `n` returns `rand(n)`.
  - Every generator takes the index of its first draw and returns the index of the first unused draw.
  - So the exact number of draws each path makes is part of every contract.
  - No property depends on the probabilities.
- The word list `WORDS` is a parameter `words: seq<string>`.
- The Supabase backend is left out. Each service call is a method on the `Room` object that stands for the stored row. A subscriber's view of the row is `Room.Snapshot()`.

Behaviours of the source that the model reproduces and makes explicit:

- In Valentine mode the next prompt for player 1 is chosen with the round counter *before* its increment.
  - `startGame` already hands out "IL".
  - So the sequence player 1 sees is IL, IL, OU, BE, MY, AL (`GameRoom.ValentineProposal`).
- The Valentine schedule hands player 2 "YE" only right after "AL".
  - The success flag is set by any accepted word while player 2 holds "YE".
  - It does not matter whether "YE" came from the schedule or from an ordinary random prompt, which can also be "YE".
- `startGame` does not reset the turn, the stored timer value or the Valentine success flag.
- `handleTimeout` does not clamp lives at zero.
- `updateConfig` writes its value unchecked.

## Model

| member | source | states |
|---|---|---|
| Text.TrimStartShape | src/lib/gameUtils.ts:22 | trimming the front of a string removes a prefix made only of white space, and leaves a string that is empty or starts with a non-space |
| Text.TrimEndShape | src/lib/gameUtils.ts:22 | trimming the back removes a suffix made only of white space, and leaves a string that is empty or ends with a non-space |
| Text.TrimIdempotent | src/lib/gameUtils.ts:22 | `trim` applied twice equals `trim` applied once |
| Text.TrimIsSlice | src/lib/gameUtils.ts:22 | the trimmed string is a contiguous slice of the original |
| Text.NormalizeIdempotent | src/services/gameService.ts:106 | the clean form `toUpperCase().trim()` of a clean word is the word itself |
| GameUtils.Index | src/lib/gameUtils.ts:47 | `Math.floor(Math.random() * n)` is a valid index below `n` |
| GameUtils.ValidWordIgnoresCaseAndSpace | src/lib/gameUtils.ts:21-28 | validity is unchanged by first cleaning the word, and by upper-casing the prompt |
| GameUtils.PlayableWords | src/lib/gameUtils.ts:7-17 | a word is playable exactly when it is in the word list and passes the length and rare-pattern filter; the playable list is no longer than the word list |
| GameUtils.RunShrinks | src/lib/gameUtils.ts:13 | a run of n consonants contains a run of every shorter length, so `{4,}` is the same test as "a run of exactly 4" |
| GameUtils.PlayableWordShape | src/lib/gameUtils.ts:7-17 | every playable word is in the word list, has length 4 to 15, has no run of 4 or more consonants (Y included), and contains none of ELY, XQ, QZ, XZ, BPM, XIM |
| GameUtils.CountContainingPrefix | src/lib/gameUtils.ts:31-40 | a prefix of the playable list never has more words containing the prompt than the whole list |
| GameUtils.CountWordsWithPrompt | src/lib/gameUtils.ts:31-40 | the counting loop with its early break returns min(number of playable words containing the prompt, 51) |
| GameUtils.FragmentStart | src/lib/gameUtils.ts:64-66 | the cut offset lies in [1, word length - fragment length], so the fragment fits and is never a prefix |
| GameUtils.Attempt | src/lib/gameUtils.ts:56-76 | one attempt of the search makes between one and three draws |
| GameUtils.FragmentIsSearched | src/lib/gameUtils.ts:64-76 | a fragment cut from a word of 5 or more letters that passes the count and rarity tests is an acceptable search result |
| GameUtils.AttemptShape | src/lib/gameUtils.ts:56-76 | any fragment an attempt accepts has 2 or 3 letters, occurs in at least 10 playable words, avoids the rare-combination pattern, and occurs at offset 1 or later in a playable word of 5 or more letters |
| GameUtils.SearchShape | src/lib/gameUtils.ts:50-79 | the retry loop yields a common prompt or an acceptable fragment, using at most three draws per remaining attempt plus one for the fallback |
| GameUtils.RandomPromptShape | src/lib/gameUtils.ts:42-80 | `getRandomPrompt` returns a common prompt or an acceptable fragment after at most 10 attempts, using 2 to 32 draws |
| GameUtils.TryAttempt | src/lib/gameUtils.ts:56-76 | the loop body, counting with `CountWordsWithPrompt`, produces exactly the outcome and draw count of `Attempt` |
| GameUtils.GetRandomPrompt | src/lib/gameUtils.ts:42-80 | the `while` loop with a mutable attempt counter and early returns yields exactly the prompt and draw count of the recursive search specification |
| GameUtils.GeneratedPromptLength | src/lib/gameUtils.ts:43-97 | every common, easy, medium or searched prompt has 2 to 4 letters |
| GameUtils.PromptByDifficultyShape | src/lib/gameUtils.ts:82-97 | easy returns a member of the easy list; medium returns a member of the medium list or a `getRandomPrompt` result; hard returns a `getRandomPrompt` result; every prompt has 2 to 4 letters and 1 to 33 draws are made |
| GameService.NextPromptCases | src/services/gameService.ts:9-36 | outside Valentine mode, and for player 2 unless the current prompt is "AL", the next prompt is the difficulty prompt; for player 1 in Valentine mode it is the list entry at counter mod 5, with no draw; for player 2 after "AL" it is "YE", with no draw |
| GameService.ValentineProposalRound | src/services/gameService.ts:19-23 | in Valentine mode player 1 is handed "AL" exactly when the counter is 4 mod 5, and "IL" exactly when it is 0 mod 5 |
| GameService.Room.constructor | src/app/page.tsx:14-25 | a new room starts with turn 1, 3 lives each, a 10-second bomb, maximum lives 3, medium difficulty, not started, and no stored timer value |
| GameService.Room.HandleTimeout | src/services/gameService.ts:39-70 | the holder loses exactly one life (no clamp) and the other player's lives stay the same; the turn flips; the stored timer becomes the bomb duration; the counter rises by one exactly when the turn returns to player 1; the prompt is `getNextPrompt` of the pre-increment counter; only these columns change |
| GameService.Room.TogglePause | src/services/gameService.ts:72-77 | writes only the pause flag and the given timer value |
| GameService.Room.UpdateConfig | src/services/gameService.ts:79-81 | the one named column holds the given value and the other six configuration columns keep theirs |
| GameService.Room.StartGame | src/services/gameService.ts:83-96 | marks the game started, sets both lives to the maximum, empties the used words and zeroes the counter; the first prompt is "IL" in Valentine mode and a difficulty prompt otherwise |
| GameService.Room.SubmitWord | src/services/gameService.ts:98-140 | success holds exactly when the cleaned input is valid for the current prompt and not yet used. A rejected word changes nothing. An accepted word is prepended to the used words, flips the turn, resets the stored timer, sets the success flag exactly when Valentine mode is on, the turn was 2 and the prompt was "YE", and moves the counter and prompt as a timeout does. Used words stay distinct, clean, longer than two letters and in the dictionary |
| GameTimer.StepRuleFacts | src/hooks/useGameTimer.ts:20-34 | a step is idle exactly when the timer is inactive or must not run; a tick reports exactly timer - 1, which is never negative; the timeout fires exactly when an active, running timer is at or below zero |
| GameTimer.Clock.constructor | src/hooks/useGameTimer.ts:18 | the countdown starts at the bomb duration |
| GameTimer.Clock.Step | src/hooks/useGameTimer.ts:20-34 | one run of the effect decrements the timer by one and reports it when above zero, reports a timeout without decrementing at zero, and does nothing when inactive; a non-negative timer stays non-negative |
| GameTimer.CountdownToTimeout | src/hooks/useGameTimer.ts:18-34 | a fresh countdown that stays active reports ticks duration-1, duration-2, ..., 0, and the next step reports the timeout, so it times out after exactly `duration` decrements (at once when duration <= 0) |
| GameBoard.PotatoSprite | src/components/game/gameBoard.tsx:30-36 | the sprite index is always 0, 1, 2 or 3 |
| GameBoard.PercentAbove | src/components/game/gameBoard.tsx:31-34 | for a positive duration, "percentage above a bound" is the integer test timer * 100 > bound * duration |
| GameBoard.SpriteBands | src/components/game/gameBoard.tsx:30-36 | for a positive duration the index is 0 above 66%, 1 above 33%, 2 above 10% and 3 otherwise, by cross-multiplication |
| GameBoard.SpriteMonotone | src/components/game/gameBoard.tsx:31-35 | for a fixed duration, more time left never gives a larger sprite index |
| GameBoard.SpriteEnds | src/components/game/gameBoard.tsx:31-35 | a full bomb (timer = duration > 0) shows 0 and an empty one (timer 0) shows 3 |
| GameRoom.WinnerIsSurvivor | src/hooks/useGameRoom.ts:144-145 | the winner is 1 or 2; once the game is over, the winner is 1 exactly when player 1 has lives left, and a player 1 with lives means player 2 has none |
| GameRoom.CountdownRunsOnlyForOwner | src/hooks/useGameRoom.ts:49-61 | the local countdown moves exactly when the game is started, not paused, it is this browser's turn, and neither player is out of lives |
| GameRoom.Client.constructor | src/hooks/useGameRoom.ts:24-41 | the hook's initial state: empty prompt, turn 1, no used words, 3 lives each, no characters, not paused, a 10-second medium game not started, countdown at 10 |
| GameRoom.Client.SyncState | src/hooks/useGameRoom.ts:63-88 | every local cell takes the row's value; missing used words become empty and missing flags false; the countdown takes the stored timer value when present, else the bomb duration when started, else keeps its value |
| GameRoom.Client.HandleSubmit | src/hooks/useGameRoom.ts:114-125 | nothing is written and no draw is made unless it is this browser's turn in a started game; then success and the whole new room state are those of `submitWord` |
| GameRoom.Client.TogglePause | src/hooks/useGameRoom.ts:94-97 | only the host writes; the written pause flag is the negation of the local flag and the written timer is the local countdown |
| GameRoom.Client.UpdateConfig | src/hooks/useGameRoom.ts:99-102 | only the host writes a setting; then the named column holds the value and the other configuration columns keep theirs |
| GameRoom.Client.SelectCharacter | src/hooks/useGameRoom.ts:104-108 | nothing without a role (or with role 0); role 1 writes player 1's character, any other role player 2's, and every other configuration column keeps its value |
| GameRoom.Client.Tick | src/hooks/useGameRoom.ts:49-61 | one countdown step with this browser's `isActive` and `shouldRun`: the local countdown takes the ticked value or stays; only a timeout writes to the room, and then the room changes exactly as `handleTimeout` changes it |
| GameRoom.SingleLifeTimeout | src/services/gameService.ts:62-69 | in a one-life game started by the host, the first timeout leaves lives (0, 1), and the other browser then sees the game over with player 2 the winner |
| GameRoom.RoundOfTimeouts | src/services/gameService.ts:39-70 | in Valentine mode two timeouts from player 1's turn bring the turn back to player 1, raise the counter by one, hand player 1 the list entry at the old counter mod 5, and cost each player one life |
| GameRoom.ValentineRounds | src/services/gameService.ts:19-23 | from a fresh Valentine start, five rounds of timeouts hand player 1 IL, IL, OU, BE, MY, AL in that order, and the turn returns to player 1 |
| GameRoom.ValentineProposal | src/services/gameService.ts:5-36 | a whole Valentine game: player 1 sees IL, IL, OU, BE, MY, AL; player 2 then holds "YE"; a valid answer is accepted and a syncing browser shows the success flag |
| GameRoom.AnswerProposal | src/services/gameService.ts:111 | player 2's valid answer to "YE" in Valentine mode is accepted, and a browser that syncs afterwards shows the success flag |

## Left out

- Supabase I/O is not modelled: row reads and writes, realtime channels, presence, typing and the `timer_sync` broadcast. A service call is a method on the `Room` object, and a subscriber receives `Room.Snapshot()`.
- Concurrency is not modelled: the two browsers, and the read-then-write race in `handleTimeout` and `submitWord`. Every transition is one atomic step.
- GameService.Room.HandleTimeout: reads the turn, the lives and the configuration from the room itself. The source takes the calling browser's copies, which equal the room's after `syncState`; the case of stale copies is not modelled.
- GameService.Room.SubmitWord: reads the prompt, the used words, the turn and the configuration from the room. The source takes the calling browser's copies; as for `HandleTimeout`, stale copies are not modelled.
- Wall-clock time is not modelled: the one-second `setTimeout` and React's effect and state scheduling. One run of the effect is one `Clock.Step`, and the `onTick` broadcast is only the reported event.
- The probabilities of `Math.random` are not modelled (the 40%, 80% and 50% splits). The draws are an arbitrary oracle, and every property holds for every draw sequence.
- The contents of the word list are not modelled; `words` is a parameter.
- `playableSet` (src/lib/gameUtils.ts:19) is computed and never used, so it is not modelled.
- The search requires a non-empty playable list. For an empty list `getRandomPrompt`'s search draws `undefined` from the empty array, and `.toUpperCase()` on it throws a `TypeError` (src/lib/gameUtils.ts:57). The model carries a non-empty list as a precondition of the medium and hard difficulties, even though a medium or hard call that takes a list prompt or the 40% common prompt would not reach the search.
- `toUpperCase` is modelled on the ASCII letters a-z only; Unicode case mapping is out of scope.
- Strings are sequences of Unicode characters. JavaScript's `length` and `substring` offsets count UTF-16 code units (src/lib/gameUtils.ts:10, 24, 59, 64-67). The two differ for characters outside the Basic Multilingual Plane, and the model does not capture that difference.
- The two regular expressions are modelled as character predicates with the same meaning on upper-cased text.
- GameBoard.PotatoSprite: uses exact rationals instead of IEEE doubles, so the rounding of `(timer / duration) * 100` is not modelled. For a zero duration the model follows the IEEE outcomes: +Infinity gives 0, NaN and -Infinity give 3.
- GameService.Room.UpdateConfig: keys are limited to the seven columns the game writes: maximum lives, bomb duration, difficulty, started flag, Valentine mode and the two characters. Arbitrary key strings are not modelled.
- The `valentine_round_count` column is a natural number, with a null column read as 0. `is_paused` is a boolean. The `valentine_mode` and `valentine_success` columns may be null and read as false.
- `startGame` in src/hooks/useGameRoom.ts:110-112 only forwards to the service, so scenarios call `Room.StartGame` directly.
- The hook's input text, the feedback flash, clearing the input and the typing broadcast (`handleInputChange`, `sendTyping`) are not modelled; they write no game state.
- Rendering is not modelled: every component other than `getPotatoSprite`.
