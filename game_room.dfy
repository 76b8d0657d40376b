/**
 * One browser's view of a room (src/hooks/useGameRoom.ts): the local copies of
 * the row kept by `syncState`, the role guards in front of each service call,
 * the conditions under which the local countdown runs, and the derived
 * game-over flag and winner.
 */
module GameRoom {
  import opened Basics
  import opened Text
  import opened GameUtils
  import opened GameService
  import opened GameTimer

  /** `isGameOver` */
  predicate IsGameOver(p1Lives: int, p2Lives: int)
  {
    p1Lives <= 0 || p2Lives <= 0
  }

  /** `winner` */
  function Winner(p1Lives: int): int
  {
    if p1Lives > 0 then 1 else 2
  }

  /** The winner is player 1 or 2; once the game is over it is the player who
      still has lives, and player 2 when neither has. */
  lemma WinnerIsSurvivor(p1Lives: int, p2Lives: int)
    ensures Winner(p1Lives) == 1 || Winner(p1Lives) == 2
    ensures IsGameOver(p1Lives, p2Lives) ==>
      (Winner(p1Lives) == 1 <==> p1Lives > 0) && (p2Lives > 0 ==> Winner(p1Lives) == 2)
    ensures IsGameOver(p1Lives, p2Lives) && p1Lives > 0 ==> p2Lives <= 0
  {
  }

  /** `isActive` of the countdown: started, not paused, and this browser's turn. */
  predicate TimerIsActive(config: GameConfig, isPaused: bool, role: Option<int>, turn: int)
  {
    config.isStarted && !isPaused && role == Some(turn)
  }

  /** `shouldRun` of the countdown: both players still have lives. */
  predicate TimerShouldRun(p1Lives: int, p2Lives: int)
  {
    p1Lives > 0 && p2Lives > 0
  }

  /** The local countdown moves exactly in the turn owner's browser of a started,
      unpaused game that is not over. */
  lemma CountdownRunsOnlyForOwner(config: GameConfig, isPaused: bool, role: Option<int>, turn: int,
                                  p1Lives: int, p2Lives: int, timer: int)
    ensures StepRule(timer, TimerIsActive(config, isPaused, role, turn), TimerShouldRun(p1Lives, p2Lives)) != Idle
      <==> config.isStarted && !isPaused && role == Some(turn) && !IsGameOver(p1Lives, p2Lives)
  {
    StepRuleFacts(timer, TimerIsActive(config, isPaused, role, turn), TimerShouldRun(p1Lives, p2Lives));
  }

  /** The guard of `handleSubmit`. */
  predicate MaySubmit(role: Option<int>, turn: int, config: GameConfig)
  {
    role == Some(turn) && config.isStarted
  }

  /** The guard of `togglePause` and `updateConfig`: only the host (player 1). */
  predicate IsHost(role: Option<int>)
  {
    role == Some(1)
  }

  /** `!myRole`: no role, or the falsy role 0. */
  predicate HasNoRole(role: Option<int>)
  {
    role.None? || role.value == 0
  }

  class Client {
    const role: Option<int>
    const room: Room
    /** The countdown cell of `useGameTimer`. */
    const clock: Clock
    var prompt: string
    var turn: int
    var usedWords: seq<string>
    var p1Lives: int
    var p2Lives: int
    var p1Character: Option<Character>
    var p2Character: Option<Character>
    var isPaused: bool
    var valentineSuccess: bool
    var config: GameConfig

    /** The hook's initial state: turn 1, three lives each, a ten-second medium
        game not yet started, and a countdown at ten. */
    constructor (role: Option<int>, room: Room)
      ensures this.role == role && this.room == room && fresh(clock)
      ensures prompt == "" && turn == 1 && usedWords == [] && p1Lives == 3 && p2Lives == 3
      ensures p1Character == None && p2Character == None && !isPaused && !valentineSuccess
      ensures config == GameConfig(3, 10, Medium, false, false) && clock.timer == 10
    {
      this.role := role;
      this.room := room;
      prompt := "";
      turn := 1;
      usedWords := [];
      p1Lives, p2Lives := 3, 3;
      p1Character, p2Character := None, None;
      isPaused := false;
      valentineSuccess := false;
      config := GameConfig(3, 10, Medium, false, false);
      clock := new Clock(10);
    }

    /** `syncState(data)`: every local cell takes the row's value (a missing used
        word list becomes empty, missing flags become false); the countdown takes
        the stored timer value when there is one, else the bomb duration if the
        game is started, else keeps its value. */
    method SyncState(data: RoomRecord)
      modifies this, clock
      ensures prompt == data.prompt && turn == data.currentTurn
      ensures usedWords == if data.usedWords.Some? then data.usedWords.value else []
      ensures p1Lives == data.p1Lives && p2Lives == data.p2Lives
      ensures p1Character == data.p1Character && p2Character == data.p2Character
      ensures isPaused == data.isPaused && valentineSuccess == (data.valentineSuccess == Some(true))
      ensures config == GameConfig(data.maxLives, data.bombDuration, data.difficulty, data.isStarted,
                                   data.valentineMode == Some(true))
      ensures data.currentTimerValue.Some? ==> clock.timer == data.currentTimerValue.value
      ensures data.currentTimerValue.None? && data.isStarted ==> clock.timer == data.bombDuration
      ensures data.currentTimerValue.None? && !data.isStarted ==> clock.timer == old(clock.timer)
    {
      prompt := data.prompt;
      turn := data.currentTurn;
      usedWords := if data.usedWords.Some? then data.usedWords.value else [];
      p1Lives, p2Lives := data.p1Lives, data.p2Lives;
      p1Character, p2Character := data.p1Character, data.p2Character;
      isPaused := data.isPaused;
      valentineSuccess := data.valentineSuccess == Some(true);
      config := GameConfig(data.maxLives, data.bombDuration, data.difficulty, data.isStarted,
                           data.valentineMode == Some(true));
      if data.currentTimerValue.Some? {
        clock.timer := data.currentTimerValue.value;
      } else if data.isStarted {
        clock.timer := data.bombDuration;
      }
    }

    /** `handleSubmit`: nothing happens unless it is this browser's turn in a
        started game; then the word goes to `submitWord`. */
    method HandleSubmit(words: seq<string>, input: string, rand: Draws, at: nat) returns (success: bool, next: nat)
      requires room.Valid() && room.CanDrawNext(words)
      modifies room`prompt, room`turn, room`usedWords, room`timerValue, room`valentineSuccess, room`roundCount
      ensures room.Valid()
      ensures !MaySubmit(role, turn, config) ==> !success && next == at && unchanged(room)
      ensures MaySubmit(role, turn, config) ==> room.Submitted(words, input, rand, at, success, next)
    {
      if !MaySubmit(role, turn, config) {
        return false, at;
      }
      success, next := room.SubmitWord(words, input, rand, at);
    }

    /** `togglePause`: only the host may pause or resume; the request carries the
        flipped local pause flag and the local countdown value. */
    method TogglePause()
      modifies room`isPaused, room`timerValue
      ensures IsHost(role) ==> room.isPaused == !isPaused && room.timerValue == Some(clock.timer)
      ensures !IsHost(role) ==> unchanged(room)
    {
      if !IsHost(role) {
        return;
      }
      room.TogglePause(!isPaused, clock.timer);
    }

    /** `updateConfig`: only the host may write a setting. */
    method UpdateConfig(u: ConfigUpdate)
      requires room.Valid()
      modifies room`maxLives, room`bombDuration, room`difficulty, room`isStarted, room`valentineMode,
               room`p1Character, room`p2Character
      ensures room.Valid()
      ensures IsHost(role) ==> room.Holds(u) && room.Updated(u)
      ensures !IsHost(role) ==> unchanged(room)
    {
      if !IsHost(role) {
        return;
      }
      room.UpdateConfig(u);
    }

    /** `selectCharacter`: nothing without a role; role 1 writes player 1's
        character and any other role player 2's. */
    method SelectCharacter(c: Character)
      requires room.Valid()
      modifies room`maxLives, room`bombDuration, room`difficulty, room`isStarted, room`valentineMode,
               room`p1Character, room`p2Character
      ensures room.Valid()
      ensures HasNoRole(role) ==> unchanged(room)
      ensures role == Some(1) ==> room.Updated(SetP1Character(c))
      ensures !HasNoRole(role) && role != Some(1) ==> room.Updated(SetP2Character(c))
    {
      if HasNoRole(role) {
        return;
      }
      var update := if role == Some(1) then SetP1Character(c) else SetP2Character(c);
      room.UpdateConfig(update);
    }

    /** One run of the countdown effect with this browser's `isActive` and
        `shouldRun`; at zero `onTimeout` calls `handleTimeout`. */
    method Tick(words: seq<string>, rand: Draws, at: nat) returns (event: TimerEvent, next: nat)
      requires room.Valid() && room.CanDrawNext(words)
      modifies clock, room`p1Lives, room`p2Lives, room`turn, room`prompt, room`timerValue, room`roundCount
      ensures room.Valid()
      ensures event == StepRule(old(clock.timer), TimerIsActive(config, isPaused, role, turn),
                                TimerShouldRun(p1Lives, p2Lives))
      ensures clock.timer == if event.Tick? then event.value else old(clock.timer)
      ensures old(clock.timer) >= 0 ==> clock.timer >= 0
      ensures event != Timeout ==> unchanged(room) && next == at
      ensures event == Timeout ==> room.TimedOut(words, rand, at, next)
    {
      event := clock.Step(TimerIsActive(config, isPaused, role, turn), TimerShouldRun(p1Lives, p2Lives));
      next := at;
      if event == Timeout {
        next := room.HandleTimeout(words, rand, at);
      }
    }
  }

  /** A one-life game: the host starts it and player 1 lets the bomb go off.
      Player 1 is left with 0 lives and player 2 with 1, and a browser that
      syncs the room sees the game over with player 2 the winner. */
  method SingleLifeTimeout(words: seq<string>, rand: Draws) returns (over: bool, winner: int, lives: (int, int))
    requires |PlayableWords(words)| > 0
    ensures over && winner == 2 && lives == (0, 1)
  {
    var room := new Room("ING");
    var host := new Client(Some(1), room);
    host.UpdateConfig(SetMaxLives(1));
    var at := room.StartGame(words, rand, 0);
    at := room.HandleTimeout(words, rand, at);
    var guest := new Client(Some(2), room);
    guest.SyncState(room.Snapshot());
    over := IsGameOver(guest.p1Lives, guest.p2Lives);
    winner := Winner(guest.p1Lives);
    lives := (guest.p1Lives, guest.p2Lives);
  }

  /** In Valentine mode, player 1 and then player 2 let the bomb go off: the
      turn is back with player 1, the round counter has advanced by one, and
      player 1's prompt is the list entry at the counter before the increment. */
  method RoundOfTimeouts(room: Room, words: seq<string>, rand: Draws, at: nat) returns (next: nat)
    requires room.Valid() && room.valentineMode && room.turn == 1 && |PlayableWords(words)| > 0
    modifies room`p1Lives, room`p2Lives, room`turn, room`prompt, room`timerValue, room`roundCount
    ensures room.Valid() && room.turn == 1 && room.roundCount == old(room.roundCount) + 1
    ensures room.prompt == ValentinePromptsP1[old(room.roundCount) % 5]
    ensures room.p1Lives == old(room.p1Lives) - 1 && room.p2Lives == old(room.p2Lives) - 1
  {
    next := room.HandleTimeout(words, rand, at);
    next := room.HandleTimeout(words, rand, next);
  }

  /** Valentine mode played by letting every bomb go off (seven lives each, so
      that nobody runs out): player 1 is handed "IL" at the start and then, after
      each full round, the list entry at the round counter before its increment,
      so "IL" comes twice before "OU", "BE", "MY" and "AL". Right after "AL",
      player 2 is handed "YE", and answering it sets the success flag that every
      browser then shows. */
  method ValentineProposal(words: seq<string>, answer: string, rand: Draws)
    returns (p1Prompts: seq<string>, p2Prompt: string, success: bool, celebrated: bool)
    requires |PlayableWords(words)| > 0
    requires IsValidWord(words, answer, "YE")
    ensures p1Prompts == ["IL", "IL", "OU", "BE", "MY", "AL"]
    ensures p2Prompt == "YE" && success && celebrated
  {
    var room := new Room("ING");
    room.UpdateConfig(SetValentineMode(true));
    room.UpdateConfig(SetMaxLives(7));
    var at := room.StartGame(words, rand, 0);
    p1Prompts, at := ValentineRounds(room, words, rand, at);
    at := room.HandleTimeout(words, rand, at);
    p2Prompt := room.prompt;
    success, celebrated := AnswerProposal(room, words, answer, rand, at);
  }

  /** Five Valentine rounds from a fresh start, each ended by two timeouts:
      player 1 is handed "IL", "IL", "OU", "BE", "MY" and "AL" in that order,
      the turn is back with player 1 and no word has been used. */
  method ValentineRounds(room: Room, words: seq<string>, rand: Draws, at: nat)
    returns (p1Prompts: seq<string>, next: nat)
    requires room.Valid() && room.valentineMode && room.turn == 1 && room.prompt == "IL"
    requires room.roundCount == 0 && room.usedWords == [] && |PlayableWords(words)| > 0
    modifies room`p1Lives, room`p2Lives, room`turn, room`prompt, room`timerValue, room`roundCount
    ensures p1Prompts == ["IL", "IL", "OU", "BE", "MY", "AL"]
    ensures room.Valid() && room.turn == 1 && room.prompt == "AL" && room.roundCount == 5
    ensures room.usedWords == [] && room.valentineMode
    ensures room.p1Lives == old(room.p1Lives) - 5 && room.p2Lives == old(room.p2Lives) - 5
  {
    p1Prompts := [room.prompt];
    next := RoundOfTimeouts(room, words, rand, at);
    p1Prompts := p1Prompts + [room.prompt];
    next := RoundOfTimeouts(room, words, rand, next);
    p1Prompts := p1Prompts + [room.prompt];
    next := RoundOfTimeouts(room, words, rand, next);
    p1Prompts := p1Prompts + [room.prompt];
    next := RoundOfTimeouts(room, words, rand, next);
    p1Prompts := p1Prompts + [room.prompt];
    next := RoundOfTimeouts(room, words, rand, next);
    p1Prompts := p1Prompts + [room.prompt];
  }

  /** Player 2, holding "YE" in Valentine mode with no word used yet, answers
      with a valid word: the word is accepted, and a browser that syncs the
      room afterwards shows the success flag. */
  method AnswerProposal(room: Room, words: seq<string>, answer: string, rand: Draws, at: nat)
    returns (success: bool, celebrated: bool)
    requires room.Valid() && room.valentineMode && room.turn == 2 && room.prompt == "YE"
    requires room.usedWords == [] && |PlayableWords(words)| > 0
    requires IsValidWord(words, answer, "YE")
    modifies room`prompt, room`turn, room`usedWords, room`timerValue, room`valentineSuccess, room`roundCount
    ensures success && celebrated
  {
    ValidWordIgnoresCaseAndSpace(words, answer, "YE");
    var next;
    success, next := room.SubmitWord(words, answer, rand, at);
    var guest := new Client(Some(2), room);
    guest.SyncState(room.Snapshot());
    celebrated := guest.valentineSuccess;
  }
}
