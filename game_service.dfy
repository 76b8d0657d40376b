/**
 * Room transitions (src/services/gameService.ts).
 *
 * The stored room row is the class `Room`, one field per column the game reads
 * or writes. Each `gameService` call becomes a method whose `modifies` clause
 * names exactly the columns its `update({...})` writes; every other column is
 * left as it was. The Supabase read that precedes a write is the method reading
 * its own fields.
 */
module GameService {
  import opened Basics
  import opened Text
  import opened GameUtils

  /** "WILL YOU BE MY VALENTINE?": player 1's prompts, in order. */
  const ValentinePromptsP1: seq<string> := ["IL", "OU", "BE", "MY", "AL"]
  /** "YES!": player 2's proposal prompt. */
  const ValentinePromptP2: string := "YE"

  datatype Character = Seal | Capybara

  /** The client's `GameConfig`, as built from the row. */
  datatype GameConfig = GameConfig(
    maxLives: int,
    duration: int,
    difficulty: Difficulty,
    isStarted: bool,
    valentineMode: bool)

  /** One `updateConfig(key, value)` call: the column it names and the value it writes. */
  datatype ConfigUpdate =
    | SetMaxLives(lives: int)
    | SetBombDuration(seconds: int)
    | SetDifficulty(difficulty: Difficulty)
    | SetStarted(started: bool)
    | SetValentineMode(on: bool)
    | SetP1Character(character: Character)
    | SetP2Character(character: Character)

  /** The columns of the row a subscriber receives; `None` stands for a null column. */
  datatype RoomRecord = RoomRecord(
    prompt: string,
    currentTurn: int,
    p1Lives: int,
    p2Lives: int,
    p1Character: Option<Character>,
    p2Character: Option<Character>,
    usedWords: Option<seq<string>>,
    isPaused: bool,
    valentineSuccess: Option<bool>,
    maxLives: int,
    bombDuration: int,
    difficulty: Difficulty,
    isStarted: bool,
    valentineMode: Option<bool>,
    currentTimerValue: Option<int>)

  /** The prompt source for `difficulty` can run: the search needs a non-empty corpus. */
  predicate CanDraw(playable: seq<string>, difficulty: Difficulty)
  {
    difficulty == Easy || |playable| > 0
  }

  /** `getNextPrompt` falls through to `getPromptByDifficulty`. */
  predicate DrawsByDifficulty(config: GameConfig, currentPrompt: string, nextTurn: int)
  {
    !config.valentineMode || (nextTurn != 1 && currentPrompt != "AL")
  }

  /** `getNextPrompt(gameConfig, currentPrompt, nextTurn, valentineRoundCount)` */
  function NextPrompt(playable: seq<string>, config: GameConfig, currentPrompt: string, nextTurn: int,
                      roundCount: nat, rand: Draws, at: nat): Drawn
    requires DrawsByDifficulty(config, currentPrompt, nextTurn) ==> CanDraw(playable, config.difficulty)
  {
    if !config.valentineMode then PromptByDifficulty(playable, config.difficulty, rand, at)
    else if nextTurn == 1 then Drawn(ValentinePromptsP1[roundCount % |ValentinePromptsP1|], at)
    else if currentPrompt == "AL" then Drawn(ValentinePromptP2, at)
    else PromptByDifficulty(playable, config.difficulty, rand, at)
  }

  /** Outside Valentine mode the next prompt is a difficulty prompt. In Valentine
      mode player 1 gets the list entry at the round counter modulo 5 without a
      draw, and player 2 gets "YE" right after "AL" and a difficulty prompt
      otherwise. Every next prompt has two to four letters. */
  lemma NextPromptCases(playable: seq<string>, config: GameConfig, currentPrompt: string, nextTurn: int,
                        roundCount: nat, rand: Draws, at: nat)
    requires DrawsByDifficulty(config, currentPrompt, nextTurn) ==> CanDraw(playable, config.difficulty)
    ensures var d := NextPrompt(playable, config, currentPrompt, nextTurn, roundCount, rand, at);
      && (DrawsByDifficulty(config, currentPrompt, nextTurn) ==>
            d == PromptByDifficulty(playable, config.difficulty, rand, at))
      && (config.valentineMode && nextTurn == 1 ==>
            d.prompt == ValentinePromptsP1[roundCount % 5] && d.prompt in ValentinePromptsP1 && d.next == at)
      && (config.valentineMode && nextTurn != 1 && currentPrompt == "AL" ==> d == Drawn("YE", at))
      && 2 <= |d.prompt| <= 4
  {
    if DrawsByDifficulty(config, currentPrompt, nextTurn) {
      PromptByDifficultyShape(playable, config.difficulty, rand, at);
    }
  }

  /** In Valentine mode player 1 is handed the last prompt "AL" exactly when the
      round counter is 4 modulo 5, and the first prompt "IL" exactly when it is 0
      modulo 5. */
  lemma ValentineProposalRound(playable: seq<string>, config: GameConfig, currentPrompt: string,
                               roundCount: nat, rand: Draws, at: nat)
    requires config.valentineMode
    ensures var d := NextPrompt(playable, config, currentPrompt, 1, roundCount, rand, at);
      && (d.prompt == "AL" <==> roundCount % 5 == 4)
      && (d.prompt == "IL" <==> roundCount % 5 == 0)
  {
    var k := roundCount % 5;
    assert 0 <= k < 5;
    assert ValentinePromptsP1[k] == "AL" <==> k == 4;
    assert ValentinePromptsP1[k] == "IL" <==> k == 0;
  }

  /** No word occurs twice. */
  ghost predicate NoRepeats(words: seq<string>)
  {
    forall i, j :: 0 <= i < j < |words| ==> words[i] != words[j]
  }

  class Room {
    var prompt: string
    var turn: int
    var p1Lives: int
    var p2Lives: int
    var usedWords: seq<string>
    var isStarted: bool
    var isPaused: bool
    var bombDuration: int
    var maxLives: int
    var difficulty: Difficulty
    /** `valentine_mode`; a null column reads as false. */
    var valentineMode: bool
    /** `current_timer_value`; null until a timeout, a word or a pause writes it. */
    var timerValue: Option<int>
    /** `valentine_round_count`; a null column reads as 0. */
    var roundCount: nat
    /** `valentine_success`; a null column reads as false. */
    var valentineSuccess: bool
    var p1Character: Option<Character>
    var p2Character: Option<Character>

    /** The turn always belongs to player 1 or player 2, and no word is used twice. */
    ghost predicate Valid()
      reads this
    {
      (turn == 1 || turn == 2) && NoRepeats(usedWords)
    }

    /** Every used word is in its normalised form, longer than two letters and
        in the dictionary. */
    ghost predicate UsedWordsAccepted(words: seq<string>)
      reads this
    {
      forall w :: w in usedWords ==> |w| > 2 && w in DictionarySet(words) && Normalize(w) == w
    }

    /** The next prompt can be drawn: the difficulty source needs a non-empty
        corpus whenever `getNextPrompt` falls through to it. */
    predicate CanDrawNext(words: seq<string>)
      reads this
    {
      DrawsByDifficulty(Config(), prompt, 3 - turn) ==> CanDraw(PlayableWords(words), difficulty)
    }

    /** The column named by `u` holds the value `u` writes. */
    predicate Holds(u: ConfigUpdate)
      reads this
    {
      match u
      case SetMaxLives(lives) => maxLives == lives
      case SetBombDuration(seconds) => bombDuration == seconds
      case SetDifficulty(d) => difficulty == d
      case SetStarted(started) => isStarted == started
      case SetValentineMode(on) => valentineMode == on
      case SetP1Character(c) => p1Character == Some(c)
      case SetP2Character(c) => p2Character == Some(c)
    }

    /** The configuration a synchronised client passes to every service call. */
    function Config(): GameConfig
      reads this
    {
      GameConfig(maxLives, bombDuration, difficulty, isStarted, valentineMode)
    }

    /** The row as a subscriber receives it. */
    function Snapshot(): (r: RoomRecord)
      reads this
      ensures r.usedWords == Some(usedWords) && r.currentTimerValue == timerValue
    {
      RoomRecord(prompt, turn, p1Lives, p2Lives, p1Character, p2Character, Some(usedWords),
                 isPaused, Some(valentineSuccess), maxLives, bombDuration, difficulty, isStarted,
                 Some(valentineMode), timerValue)
    }

    /** What `updateConfig(u)` leaves behind: the column `u` names holds the
        new value and every other configuration column its old one. */
    twostate predicate Updated(u: ConfigUpdate)
      reads this
    {
      && maxLives == (if u.SetMaxLives? then u.lives else old(maxLives))
      && bombDuration == (if u.SetBombDuration? then u.seconds else old(bombDuration))
      && difficulty == (if u.SetDifficulty? then u.difficulty else old(difficulty))
      && isStarted == (if u.SetStarted? then u.started else old(isStarted))
      && valentineMode == (if u.SetValentineMode? then u.on else old(valentineMode))
      && p1Character == (if u.SetP1Character? then Some(u.character) else old(p1Character))
      && p2Character == (if u.SetP2Character? then Some(u.character) else old(p2Character))
    }

    /** What `handleTimeout` leaves behind: the player on turn has lost one life
        (no clamp at zero), the turn has passed, the bomb is reset to the
        configured duration, the round counter has advanced when the turn came
        back to player 1, and the prompt is `getNextPrompt` of the counter before
        the increment; `next` is the first draw not consumed. */
    twostate predicate TimedOut(words: seq<string>, rand: Draws, at: nat, next: nat)
      requires old(CanDrawNext(words))
      reads this
    {
      && (old(turn) == 1 ==> p1Lives == old(p1Lives) - 1 && p2Lives == old(p2Lives))
      && (old(turn) == 2 ==> p2Lives == old(p2Lives) - 1 && p1Lives == old(p1Lives))
      && turn == 3 - old(turn)
      && timerValue == Some(old(bombDuration))
      && roundCount == (if turn == 1 then old(roundCount) + 1 else old(roundCount))
      && Drawn(prompt, next) ==
           NextPrompt(PlayableWords(words), old(Config()), old(prompt), 3 - old(turn), old(roundCount), rand, at)
    }

    /** What `submitWord(input)` leaves behind. The word is accepted exactly when
        its cleaned form is valid for the prompt and not yet used; a rejected word
        writes nothing and draws nothing. An accepted one is put at the front of
        the used words, the turn passes, the bomb is reset, the Valentine success
        flag is set exactly when player 2 answered "YE" in Valentine mode, and the
        round counter and the prompt move as on a timeout. */
    twostate predicate Submitted(words: seq<string>, input: string, rand: Draws, at: nat, success: bool, next: nat)
      requires old(CanDrawNext(words))
      reads this
    {
      && success == (IsValidWord(words, Normalize(input), old(prompt)) && Normalize(input) !in old(usedWords))
      && (!success ==> unchanged(this) && next == at)
      && (success ==>
            && usedWords == [Normalize(input)] + old(usedWords)
            && turn == 3 - old(turn)
            && timerValue == Some(old(bombDuration))
            && valentineSuccess == (old(valentineMode) && old(turn) == 2 && old(prompt) == ValentinePromptP2)
            && roundCount == (if turn == 1 then old(roundCount) + 1 else old(roundCount))
            && Drawn(prompt, next) ==
                 NextPrompt(PlayableWords(words), old(Config()), old(prompt), 3 - old(turn), old(roundCount), rand, at))
    }

    /** The row a new room is inserted with (src/app/page.tsx): turn 1, three
        lives each, a ten-second bomb, medium difficulty, not started. */
    constructor (initialPrompt: string)
      ensures Valid() && prompt == initialPrompt && turn == 1
      ensures p1Lives == 3 && p2Lives == 3 && usedWords == []
      ensures !isStarted && !isPaused && bombDuration == 10 && maxLives == 3 && difficulty == Medium
      ensures !valentineMode && timerValue == None && roundCount == 0 && !valentineSuccess
      ensures p1Character == None && p2Character == None
    {
      prompt := initialPrompt;
      turn := 1;
      p1Lives, p2Lives := 3, 3;
      usedWords := [];
      isStarted, isPaused := false, false;
      bombDuration, maxLives := 10, 3;
      difficulty := Medium;
      valentineMode := false;
      timerValue := None;
      roundCount := 0;
      valentineSuccess := false;
      p1Character, p2Character := None, None;
    }

    /** `handleTimeout`: the player on turn loses one life (no clamp at zero),
        the turn passes, the bomb is reset, and the round counter advances when
        the turn comes back to player 1; the next prompt is computed from the
        counter before the increment. */
    method HandleTimeout(words: seq<string>, rand: Draws, at: nat) returns (next: nat)
      requires Valid()
      requires CanDrawNext(words)
      modifies this`p1Lives, this`p2Lives, this`turn, this`prompt, this`timerValue, this`roundCount
      ensures Valid() && TimedOut(words, rand, at, next)
    {
      var isP1 := turn == 1;
      var nextTurn := if turn == 1 then 2 else 1;
      var d := NextPrompt(PlayableWords(words), Config(), prompt, nextTurn, roundCount, rand, at);
      p1Lives := if isP1 then p1Lives - 1 else p1Lives;
      p2Lives := if !isP1 then p2Lives - 1 else p2Lives;
      turn := nextTurn;
      prompt := d.prompt;
      timerValue := Some(bombDuration);
      roundCount := if nextTurn == 1 then roundCount + 1 else roundCount;
      next := d.next;
    }

    /** `togglePause(isPaused, currentTimer)`: writes the pause flag and the
        caller's current timer value, nothing else. */
    method TogglePause(paused: bool, currentTimer: int)
      modifies this`isPaused, this`timerValue
      ensures isPaused == paused && timerValue == Some(currentTimer)
    {
      isPaused := paused;
      timerValue := Some(currentTimer);
    }

    /** `updateConfig(key, value)`: writes the one named column, unchecked. */
    method UpdateConfig(u: ConfigUpdate)
      requires Valid()
      modifies this`maxLives, this`bombDuration, this`difficulty, this`isStarted, this`valentineMode,
               this`p1Character, this`p2Character
      ensures Valid() && Holds(u) && Updated(u)
    {
      match u
      case SetMaxLives(lives) => maxLives := lives;
      case SetBombDuration(seconds) => bombDuration := seconds;
      case SetDifficulty(d) => difficulty := d;
      case SetStarted(started) => isStarted := started;
      case SetValentineMode(on) => valentineMode := on;
      case SetP1Character(c) => p1Character := Some(c);
      case SetP2Character(c) => p2Character := Some(c);
    }

    /** `startGame`: both players get `maxLives`, the used words and the round
        counter are cleared, and the first prompt is "IL" in Valentine mode and
        a difficulty prompt otherwise. The turn, the pause flag and the stored
        timer value are not written. */
    method StartGame(words: seq<string>, rand: Draws, at: nat) returns (next: nat)
      requires Valid()
      requires !valentineMode ==> CanDraw(PlayableWords(words), difficulty)
      modifies this`isStarted, this`p1Lives, this`p2Lives, this`prompt, this`usedWords, this`roundCount
      ensures Valid()
      ensures isStarted && p1Lives == maxLives && p2Lives == maxLives && usedWords == [] && roundCount == 0
      ensures valentineMode ==> prompt == ValentinePromptsP1[0] == "IL" && next == at
      ensures !valentineMode ==> Drawn(prompt, next) == PromptByDifficulty(PlayableWords(words), difficulty, rand, at)
    {
      var initial := if valentineMode then Drawn(ValentinePromptsP1[0], at)
                     else PromptByDifficulty(PlayableWords(words), difficulty, rand, at);
      isStarted := true;
      p1Lives, p2Lives := maxLives, maxLives;
      prompt := initial.prompt;
      usedWords := [];
      roundCount := 0;
      next := initial.next;
    }

    /** `submitWord(input, ...)`: the cleaned word is accepted when it passes
        `isValidWord` against the current prompt and has not been used. A
        rejected word writes nothing. An accepted one is put at the front of the
        used words, passes the turn, resets the bomb, sets the Valentine success
        flag exactly when player 2 answered "YE" in Valentine mode, and advances
        the round counter as a timeout does. */
    method SubmitWord(words: seq<string>, input: string, rand: Draws, at: nat) returns (success: bool, next: nat)
      requires Valid()
      requires CanDrawNext(words)
      modifies this`prompt, this`turn, this`usedWords, this`timerValue, this`valentineSuccess, this`roundCount
      ensures Valid() && Submitted(words, input, rand, at, success, next)
      ensures old(UsedWordsAccepted(words)) ==> UsedWordsAccepted(words)
    {
      var cleanInput := Normalize(input);
      if IsValidWord(words, cleanInput, prompt) && cleanInput !in usedWords {
        var nextTurn := if turn == 1 then 2 else 1;
        var isValentineSuccess := valentineMode && turn == 2 && prompt == "YE";
        var d := NextPrompt(PlayableWords(words), Config(), prompt, nextTurn, roundCount, rand, at);
        NormalizeIdempotent(input);
        prompt := d.prompt;
        turn := nextTurn;
        usedWords := [cleanInput] + usedWords;
        timerValue := Some(bombDuration);
        valentineSuccess := isValentineSuccess;
        roundCount := if nextTurn == 1 then roundCount + 1 else roundCount;
        return true, d.next;
      }
      return false, at;
    }
  }
}
