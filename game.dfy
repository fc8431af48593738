/** One game: from the start button to the Win or Loss display. */
module Game {
  import opened Colors
  import opened Hardware
  import opened SequenceBuilder
  import opened Display
  import opened Input
  import opened Answer

  /** How a game ends. Finished carries game_state (2 for a win, 0 for a
      loss), the difficulty, the final round and GetAnswer's verdict in each
      round played. OutOfInput: the polls ran out while a routine was still
      waiting for a button. UndefinedRead: GetAnswer was about to read outside
      the sequence. */
  datatype GameEnd =
    | Finished(state: int, difficulty: int, round: int, answers: seq<Verdict>)
    | OutOfInput
    | UndefinedRead

  /** The verdicts of n rounds answered correctly. */
  function Passed(n: nat): (r: seq<Verdict>)
    ensures |r| == n && forall k :: 0 <= k < n ==> r[k] == Correct
  {
    if n == 0 then [] else Passed(n - 1) + [Correct]
  }

  /** Every round shows the colors MakeSequence chose, one LED per entry. */
  lemma RoundShowsColors(first: int, second: int, round: int)
    requires round < 16
    ensures var shown := Lighted(Playback(Expand(first, second)[..Shown(round)]));
      && |shown| == Shown(round)
      && forall k :: 0 <= k < Shown(round) ==> shown[k] == LedOf(ColorsOf(first, second)[k])
  {
    var codes := Expand(first, second)[..Shown(round)];
    PlaybackLights(codes);
    forall k | 0 <= k < Shown(round)
      ensures ColorOf(codes[k]).value == ColorsOf(first, second)[k]
    {
      assert Codes(ColorsOf(first, second))[k] == codes[k];
    }
  }

  /** What one pass of the game loop shows before GetAnswer: Wait(ONE_SEC),
      the playback of sequence[0..round], Wait(TEN_MS). */
  function ShowLog(values: seq<int>, round: int): seq<Event>
    requires |values| == 16 && round < 16
  {
    [Delay(ONE_SEC)] + Playback(values[..Shown(round)]) + [Delay(TEN_MS)]
  }

  /** What one pass of the game loop shows after a Correct or Wrong answer:
      Wait(TEN_MS), the status flashes when it was correct, Wait(TEN_MS). */
  function CloseLog(correct: bool): seq<Event> {
    [Delay(TEN_MS)] + (if correct then Flashes(StatusLed, 8) else []) + [Delay(TEN_MS)]
  }

  /** What one pass of the game loop shows, given GetAnswer's outcome r: the
      playback, one QUART_SEC wait per press judged, and the close. A round
      whose polls ran out stops after the presses. */
  function TurnLog(values: seq<int>, round: int, r: Outcome): seq<Event>
    requires |values| == 16 && round < 16
  {
    ShowLog(values, round) + Delays(QUART_SEC, r.presses)
    + (if r.verdict == Stalled then [] else CloseLog(r.verdict == Correct))
  }

  /** The start of a pass of the game loop: wait, play the sequence so far, wait. */
  method Show(b: Board, sequence: array<int>, round: int)
    requires b.Valid() && sequence.Length == 16 && 0 <= round < 16 && b.leds.Dark()
    modifies b`leds, b`ticks, b`misses, b`log
    ensures b.Valid()
    ensures b.log == old(b.log) + ShowLog(sequence[..], round)
    ensures b.leds == old(b.leds)
  {
    b.Wait(ONE_SEC);
    BlinkLeds(b, sequence, round);
    b.Wait(TEN_MS);
  }

  /** The end of a pass of the game loop after a Correct or Wrong answer. */
  method Close(b: Board, correct: bool)
    requires b.Valid()
    modifies b`leds, b`ticks, b`misses, b`log
    ensures b.Valid()
    ensures b.log == old(b.log) + CloseLog(correct)
    ensures b.leds == old(b.leds)
  {
    b.Wait(TEN_MS);
    if correct {
      CorrectAnswer(b);
    }
    b.Wait(TEN_MS);
  }

  /** The body of the game loop, apart from its updates of game_state and
      round: show the sequence so far, take the player's answer and, when it
      is right, flash the status LED. */
  method Turn(b: Board, sequence: array<int>, round: int) returns (verdict: Verdict)
    requires b.Valid() && sequence.Length == 16 && 0 <= round < 16 && b.leds.Dark()
    modifies b`leds, b`ticks, b`misses, b`log, b`polls
    ensures b.Valid()
    ensures var r := Run(sequence[..], round, Scan(0, false), old(b.polls));
      && verdict == r.verdict
      && (verdict != OutOfRange ==>
            && b.polls == old(b.polls)[r.used..]
            && b.log == old(b.log) + TurnLog(sequence[..], round, r))
    ensures OneButtonTrace(old(b.polls)) ==> verdict != OutOfRange && OneButtonTrace(b.polls)
    ensures b.leds == old(b.leds)
  {
    ghost var values := sequence[..];
    ghost var r := Run(values, round, Scan(0, false), old(b.polls));
    Show(b, sequence, round);
    ghost var shown := b.log;
    verdict := GetAnswer(b, sequence, round);
    if OneButtonTrace(old(b.polls)) {
      AnswerOneButton(values, round, old(b.polls));
    }
    if verdict == OutOfRange || verdict == Stalled {
      Associate(old(b.log), ShowLog(values, round), Delays(QUART_SEC, r.presses));
      return;
    }
    ghost var answered := b.log;
    Close(b, verdict == Correct);
    Associate(old(b.log), ShowLog(values, round), Delays(QUART_SEC, r.presses));
    Associate(old(b.log), ShowLog(values, round) + Delays(QUART_SEC, r.presses), CloseLog(verdict == Correct));
  }

  /** What the start of a game makes of the polls: the first poll with the
      red button down starts it, and the first poll after that with any
      button down chooses the difficulty. 0, and no polls left, when either
      is missing; otherwise the difficulty and the polls after the second. */
  function Opening(polls: seq<Pins>): (r: (int, seq<Pins>))
  {
    var k := FirstWith(polls, RedDown);
    if k == |polls| then (0, []) else Choice(polls[k + 1..])
  }

  /** What ChooseDifficulty makes of the polls: the difficulty the first
      poll with a button down selects and the polls after it, or 0 and no
      polls left. */
  function Choice(polls: seq<Pins>): (r: (int, seq<Pins>))
  {
    var j := FirstWith(polls, AnyDown);
    if j == |polls| then (0, []) else (Difficulty(polls[j]), polls[j + 1..])
  }

  /** Choice is what ChooseDifficulty returns and leaves. */
  lemma ChoiceOf(polls: seq<Pins>, x: int, rest: seq<Pins>)
    requires var k := FirstWith(polls, AnyDown);
      if k < |polls| then x == Difficulty(polls[k]) && rest == polls[k + 1..] else x == 0 && rest == []
    ensures (x, rest) == Choice(polls)
    ensures x == 0 <==> !exists j :: 0 <= j < |polls| && AnyDown(polls[j])
  {
  }

  /** What the start of a game shows: red on, and when a poll has the red
      button down, red off and the choice of difficulty. */
  function OpeningLog(polls: seq<Pins>): seq<Event> {
    var k := FirstWith(polls, RedDown);
    if k == |polls| then [On(RedLed)] else [On(RedLed), Off(RedLed)] + ChoiceLog(polls[k + 1..])
  }

  /** What the choice of difficulty shows: Wait(QUART_SEC), the prompt and
      the confirmations. */
  function ChoiceLog(polls: seq<Pins>): seq<Event> {
    [Delay(QUART_SEC)] + Prompt() + Chosen(polls)
  }

  /** A game gets a difficulty exactly when some poll has the red button
      down and a later one has a button down, and it is then one of the
      four levels. */
  lemma OpeningZero(polls: seq<Pins>)
    ensures Opening(polls).0 == 0 <==>
      !exists i, j :: 0 <= i < j < |polls| && RedDown(polls[i]) && AnyDown(polls[j])
    ensures Opening(polls).0 != 0 ==> Opening(polls).0 in {EASY, NORMAL, HARD, EXTREME}
  {
    var k := FirstWith(polls, RedDown);
    if k < |polls| {
      var after := polls[k + 1..];
      var j := FirstWith(after, AnyDown);
      if j < |after| {
        assert RedDown(polls[k]) && AnyDown(polls[k + 1 + j]);
      } else {
        forall i, j' | 0 <= i < j' < |polls| && RedDown(polls[i])
          ensures !AnyDown(polls[j'])
        {
          assert k <= i;
          assert polls[j'] == after[j' - k - 1];
        }
      }
    }
  }

  /** The start of a game up to the choice of difficulty: Reset, a
      QUART_SEC wait, ChooseDifficulty. 0 when the polls ran out first. */
  method Prepare(b: Board) returns (difficulty: int)
    requires b.Valid()
    modifies b`leds, b`ticks, b`misses, b`log, b`polls
    ensures b.Valid()
    ensures (difficulty, b.polls) == Opening(old(b.polls))
    ensures difficulty == 0 || difficulty in {EASY, NORMAL, HARD, EXTREME}
    ensures difficulty != 0 ==> b.leds == old(b.leds).(red := false, green := false, blue := false, yellow := false)
    ensures b.log == old(b.log) + OpeningLog(old(b.polls))
    ensures OneButtonTrace(old(b.polls)) ==> OneButtonTrace(b.polls)
  {
    var started := Reset(b);
    if OneButtonTrace(old(b.polls)) {
      OneButtonSuffix(old(b.polls), |old(b.polls)| - |b.polls|);
    }
    if !started {
      return 0;
    }
    assert b.leds == old(b.leds).(red := false);
    ghost var rest := b.polls;
    difficulty := Pick(b);
    Associate(old(b.log), [On(RedLed), Off(RedLed)], ChoiceLog(rest));
  }

  /** The QUART_SEC wait and ChooseDifficulty after the start button. */
  method Pick(b: Board) returns (difficulty: int)
    requires b.Valid()
    modifies b`leds, b`ticks, b`misses, b`log, b`polls
    ensures b.Valid()
    ensures (difficulty, b.polls) == Choice(old(b.polls))
    ensures difficulty != 0 ==> b.leds == old(b.leds).(green := false, blue := false, yellow := false)
    ensures b.log == old(b.log) + ChoiceLog(old(b.polls))
    ensures OneButtonTrace(old(b.polls)) ==> OneButtonTrace(b.polls)
  {
    b.Wait(QUART_SEC);
    difficulty := ChooseDifficulty(b);
    ChoiceOf(old(b.polls), difficulty, b.polls);
    Associate(old(b.log), [Delay(QUART_SEC)], Prompt());
    Associate(old(b.log), [Delay(QUART_SEC)] + Prompt(), Chosen(old(b.polls)));
    if OneButtonTrace(old(b.polls)) {
      OneButtonSuffix(old(b.polls), |old(b.polls)| - |b.polls|);
    }
  }

  /** Round k answers `answer` reading from `start` and leaves `next`;
      the log grows from `shown` to `shown'` by the round's TurnLog. */
  ghost predicate Link(values: seq<int>, k: int, start: seq<Pins>, answer: Verdict, shown: seq<Event>,
                       next: seq<Pins>, shown': seq<Event>)
  {
    && |values| == 16 && k < 16
    && var r := Run(values, k, Scan(0, false), start);
       answer == r.verdict && next == start[r.used..] && shown' == shown + TurnLog(values, k, r)
  }

  /** The state after round k: where round k + 1 starts, or, after the
      last round, `rest`. */
  function Next<T>(starts: seq<T>, rest: T, k: nat): T {
    if k + 1 < |starts| then starts[k + 1] else rest
  }

  /** The rounds of the game loop. Round k takes its answer from starts[k]
      (the first round from `first`) and finds the log at logs[k] (the first
      round at `log0`); its verdict is answers[k], and the next round, or
      what comes after the loop (`rest` and `log`), starts where that
      GetAnswer stopped reading and with that round's TurnLog shown. */
  ghost predicate Chain(values: seq<int>, first: seq<Pins>, log0: seq<Event>, starts: seq<seq<Pins>>,
                        answers: seq<Verdict>, logs: seq<seq<Event>>, rest: seq<Pins>, log: seq<Event>)
  {
    && |starts| == |answers| == |logs|
    && (starts == [] ==> rest == first && log == log0)
    && (starts != [] ==> starts[0] == first && logs[0] == log0)
    && forall k {:trigger Link(values, k, starts[k], answers[k], logs[k], Next(starts, rest, k), Next(logs, log, k))} ::
         0 <= k < |starts| ==>
           Link(values, k, starts[k], answers[k], logs[k], Next(starts, rest, k), Next(logs, log, k))
  }

  /** The next round answers from `rest`, leaves what its GetAnswer did not
      read and adds its TurnLog to `log`. */
  lemma ChainStep(values: seq<int>, first: seq<Pins>, log0: seq<Event>, starts: seq<seq<Pins>>,
                  answers: seq<Verdict>, logs: seq<seq<Event>>, rest: seq<Pins>, log: seq<Event>)
    requires Chain(values, first, log0, starts, answers, logs, rest, log)
    requires |values| == 16 && |starts| < 16
    ensures var r := Run(values, |starts|, Scan(0, false), rest);
      Chain(values, first, log0, starts + [rest], answers + [r.verdict], logs + [log],
            rest[r.used..], log + TurnLog(values, |starts|, r))
  {
    var r := Run(values, |starts|, Scan(0, false), rest);
    var log' := log + TurnLog(values, |starts|, r);
    assert Link(values, |starts|, rest, r.verdict, log, rest[r.used..], log');
    ChainExtend(values, first, log0, starts, answers, logs, rest, log, r.verdict, rest[r.used..], log');
  }

  /** A chain grows by any round that links on from where it stopped. */
  lemma ChainExtend(values: seq<int>, first: seq<Pins>, log0: seq<Event>, starts: seq<seq<Pins>>,
                    answers: seq<Verdict>, logs: seq<seq<Event>>, rest: seq<Pins>, log: seq<Event>,
                    answer: Verdict, rest': seq<Pins>, log': seq<Event>)
    requires Chain(values, first, log0, starts, answers, logs, rest, log)
    requires Link(values, |starts|, rest, answer, log, rest', log')
    ensures Chain(values, first, log0, starts + [rest], answers + [answer], logs + [log], rest', log')
  {
    var starts', answers', logs' := starts + [rest], answers + [answer], logs + [log];
    forall k | 0 <= k < |starts'|
      ensures Link(values, k, starts'[k], answers'[k], logs'[k], Next(starts', rest', k), Next(logs', log', k))
    {
      if k < |starts| {
        assert starts'[k] == starts[k] && answers'[k] == answers[k] && logs'[k] == logs[k];
        LinkShift(values, k, starts[k], answers[k], logs[k], Next(starts, rest, k), Next(logs, log, k),
                  Next(starts', rest', k), Next(logs', log', k));
      } else {
        assert starts'[k] == rest && answers'[k] == answer && logs'[k] == log;
        assert Next(starts', rest', k) == rest' && Next(logs', log', k) == log';
      }
    }
  }

  lemma LinkShift(values: seq<int>, k: int, start: seq<Pins>, answer: Verdict, shown: seq<Event>,
                  next: seq<Pins>, shown': seq<Event>, next2: seq<Pins>, shown2: seq<Event>)
    requires Link(values, k, start, answer, shown, next, shown') && next == next2 && shown' == shown2
    ensures Link(values, k, start, answer, shown, next2, shown2)
  {
  }

  /** One pass of the game loop's body, Turn, as one more link of the
      chain: the polls it read and the TurnLog it showed. */
  method PlayRound(b: Board, sequence: array<int>, round: int, ghost values: seq<int>, ghost first: seq<Pins>,
                   ghost log0: seq<Event>, ghost starts: seq<seq<Pins>>, ghost answers: seq<Verdict>,
                   ghost logs: seq<seq<Event>>)
    returns (verdict: Verdict)
    requires b.Valid() && sequence.Length == 16 && sequence[..] == values && b.leds.Dark()
    requires 0 <= round == |starts| < 16
    requires Chain(values, first, log0, starts, answers, logs, b.polls, b.log)
    modifies b`leds, b`ticks, b`misses, b`log, b`polls
    ensures b.Valid() && b.leds == old(b.leds)
    ensures verdict == Run(values, round, Scan(0, false), old(b.polls)).verdict
    ensures verdict != OutOfRange ==>
      Chain(values, first, log0, starts + [old(b.polls)], answers + [verdict], logs + [old(b.log)], b.polls, b.log)
    ensures verdict == Stalled ==> b.polls == []
    ensures OneButtonTrace(old(b.polls)) ==> verdict != OutOfRange && OneButtonTrace(b.polls)
  {
    ChainStep(values, first, log0, starts, answers, logs, b.polls, b.log);
    RunStalled(values, round, Scan(0, false), b.polls);
    verdict := Turn(b, sequence, round);
  }

  /** What the game loop did, by how it ended. Finished: the rounds form a
      chain ending in `rest` and `log`, and the game concluded. OutOfInput:
      every round before the last was answered correctly, and the last
      read every remaining poll without an answer. UndefinedRead: the rounds
      before the last form a chain that ends where the last one starts, all
      correct, and the last one's GetAnswer reads outside the array. Either
      way no more than `difficulty` rounds were played. */
  ghost predicate Played(end: GameEnd, difficulty: int, values: seq<int>, first: seq<Pins>, log0: seq<Event>,
                         starts: seq<seq<Pins>>, logs: seq<seq<Event>>, rest: seq<Pins>, log: seq<Event>)
  {
    match end
    case Finished(_, _, _, answers) =>
      Concluded(end, difficulty) && Chain(values, first, log0, starts, answers, logs, rest, log)
    case OutOfInput =>
      && 0 < |starts| <= difficulty && rest == []
      && Chain(values, first, log0, starts, Passed(|starts| - 1) + [Stalled], logs, rest, log)
    case UndefinedRead =>
      && 0 < |starts| <= difficulty && |logs| == |starts|
      && var n := |starts| - 1;
         && Chain(values, first, log0, starts[..n], Passed(n), logs[..n], starts[n], logs[n])
         && Run(values, n, Scan(0, false), starts[n]).verdict == OutOfRange
  }

  /** A round whose polls ran out after |starts| correct rounds ends the
      game loop as OutOfInput. */
  lemma StalledPlayed(difficulty: int, values: seq<int>, first: seq<Pins>, log0: seq<Event>,
                      starts: seq<seq<Pins>>, logs: seq<seq<Event>>, polls: seq<Pins>, log: seq<Event>,
                      rest: seq<Pins>, log': seq<Event>)
    requires |starts| < difficulty && rest == []
    requires Chain(values, first, log0, starts + [polls], Passed(|starts|) + [Stalled], logs + [log], rest, log')
    ensures Played(OutOfInput, difficulty, values, first, log0, starts + [polls], logs + [log], rest, log')
  {
  }

  /** A round about to read outside the array after |starts| correct
      rounds ends the game loop as UndefinedRead. */
  lemma UndefinedPlayed(difficulty: int, values: seq<int>, first: seq<Pins>, log0: seq<Event>,
                        starts: seq<seq<Pins>>, logs: seq<seq<Event>>, polls: seq<Pins>, log: seq<Event>,
                        rest: seq<Pins>, log': seq<Event>)
    requires |starts| < difficulty && |logs| == |starts|
    requires Chain(values, first, log0, starts, Passed(|starts|), logs, polls, log)
    requires Run(values, |starts|, Scan(0, false), polls).verdict == OutOfRange
    ensures Played(UndefinedRead, difficulty, values, first, log0, starts + [polls], logs + [log], rest, log')
  {
    assert (starts + [polls])[..|starts|] == starts && (logs + [log])[..|starts|] == logs;
  }

  /** The game loop: rounds until game_state leaves 1. A Finished result
      has not yet shown Win or Loss. */
  method Rounds(b: Board, sequence: array<int>, ghost values: seq<int>, difficulty: int)
    returns (end: GameEnd, ghost starts: seq<seq<Pins>>, ghost logs: seq<seq<Event>>)
    requires b.Valid() && sequence.Length == 16 && sequence[..] == values && b.leds.Dark()
    requires difficulty in {EASY, NORMAL, HARD, EXTREME}
    modifies b`leds, b`ticks, b`misses, b`log, b`polls
    ensures b.Valid() && b.leds == old(b.leds)
    ensures Played(end, difficulty, values, old(b.polls), old(b.log), starts, logs, b.polls, b.log)
    ensures OneButtonTrace(old(b.polls)) ==> !end.UndefinedRead?
  {
    var gameState := 1;
    var round := 0;
    var answers := [];
    starts, logs := [], [];
    while gameState == 1
      invariant b.Valid()
      invariant Progress(gameState, difficulty, round, answers)
      invariant Chain(values, old(b.polls), old(b.log), starts, answers, logs, b.polls, b.log)
      invariant b.leds == old(b.leds)
      invariant OneButtonTrace(old(b.polls)) ==> OneButtonTrace(b.polls)
      decreases difficulty - round + (if gameState == 1 then 1 else 0)
    {
      ghost var polls, log := b.polls, b.log;
      var verdict := PlayRound(b, sequence, round, values, old(b.polls), old(b.log), starts, answers, logs);
      if verdict == Stalled {
        StalledPlayed(difficulty, values, old(b.polls), old(b.log), starts, logs, polls, log, b.polls, b.log);
        return OutOfInput, starts + [polls], logs + [log];
      }
      if verdict == OutOfRange {
        UndefinedPlayed(difficulty, values, old(b.polls), old(b.log), starts, logs, polls, log, b.polls, b.log);
        return UndefinedRead, starts + [polls], logs + [log];
      }
      Advance(difficulty, round, answers, verdict);
      gameState := if verdict == Correct then 1 else 0;
      answers, starts, logs := answers + [verdict], starts + [polls], logs + [log];
      if gameState == 1 {
        round := round + 1;
      }
      if round == difficulty {
        gameState := 2;
      }
    }
    end := Finished(gameState, difficulty, round, answers);
  }

  /** What a finished game reports: a win after `difficulty` correct rounds,
      or a loss after fewer correct rounds and one wrong answer. */
  predicate Concluded(end: GameEnd, difficulty: int)
    requires end.Finished?
  {
    && end.difficulty == difficulty
    && 0 <= end.round <= end.difficulty
    && (end.state == 2 <==> end.round == end.difficulty)
    && (end.state == 0 <==> end.round < end.difficulty)
    && (end.state == 2 ==> end.answers == Passed(end.round))
    && (end.state == 0 ==> end.answers == Passed(end.round) + [Wrong])
  }

  /** The state of the game loop between rounds: still playing with
      `round` rounds passed, or concluded. */
  predicate Progress(gameState: int, difficulty: int, round: int, answers: seq<Verdict>) {
    if gameState == 1 then 0 <= round < difficulty && answers == Passed(round)
    else (gameState == 0 || gameState == 2) && Concluded(Finished(gameState, difficulty, round, answers), difficulty)
  }

  /** A round answered Correct or Wrong moves the game loop on: game_state
      takes the verdict, a correct answer advances the round, and reaching
      the difficulty wins. */
  lemma Advance(difficulty: int, round: int, answers: seq<Verdict>, verdict: Verdict)
    requires Progress(1, difficulty, round, answers) && (verdict == Correct || verdict == Wrong)
    ensures var next := if verdict == Correct then round + 1 else round;
      Progress(if next == difficulty then 2 else if verdict == Correct then 1 else 0, difficulty, next, answers + [verdict])
  {
  }

  /** What the end of a game shows: Win after a won game, Loss after a lost one. */
  function FinaleLog(won: bool): seq<Event> {
    if won then Repeat(WinCycle(), 3) else Repeat(LossCycle(), 3) + [Delay(ONE_SEC)]
  }

  /** The sequence built from the two timer values, the game loop over it
      and the Win or Loss display after it. `played` is the log when the
      game loop ends. */
  method Play(b: Board, first: int, second: int, difficulty: int)
    returns (end: GameEnd, ghost starts: seq<seq<Pins>>, ghost logs: seq<seq<Event>>, ghost played: seq<Event>)
    requires b.Valid() && b.leds.Dark()
    requires difficulty in {EASY, NORMAL, HARD, EXTREME}
    modifies b`leds, b`ticks, b`misses, b`log, b`polls
    ensures b.Valid() && b.leds == old(b.leds)
    ensures Played(end, difficulty, Expand(first, second), old(b.polls), old(b.log), starts, logs, b.polls, played)
    ensures b.log == played + (if end.Finished? then FinaleLog(end.state == 2) else [])
    ensures OneButtonTrace(old(b.polls)) ==> !end.UndefinedRead?
  {
    var sequence := new int[16];
    MakeSequence(sequence, first, second);
    end, starts, logs := Rounds(b, sequence, Expand(first, second), difficulty);
    played := b.log;
    if end.Finished? {
      Finale(b, end.state == 2);
    }
  }

  /** Win after a won game, Loss after a lost one. */
  method Finale(b: Board, won: bool)
    requires b.Valid()
    modifies b`leds, b`ticks, b`misses, b`log
    ensures b.Valid()
    ensures b.log == old(b.log) + FinaleLog(won)
    ensures won ==> b.leds == old(b.leds).(red := false, green := false, blue := false, yellow := false)
    ensures !won ==> b.leds == old(b.leds).With(RedLed, false)
    ensures old(b.leds).Dark() ==> b.leds == old(b.leds)
  {
    if won {
      Win(b);
    } else {
      Loss(b);
      Associate(old(b.log), Repeat(LossCycle(), 3), [Delay(ONE_SEC)]);
    }
  }

  /** One pass of the firmware's outer loop. `first` and `second` are the
      values GetFirstNumber and GetSecondNumber read from the free-running
      timers TA1R and TA2R. */
  method PlayGame(b: Board, first: int, second: int)
    returns (end: GameEnd, ghost starts: seq<seq<Pins>>, ghost logs: seq<seq<Event>>, ghost played: seq<Event>)
    requires b.Valid()
    modifies b`leds, b`ticks, b`misses, b`log, b`polls
    ensures b.Valid()
    ensures Opening(old(b.polls)).0 == 0 ==> end == OutOfInput && b.log == old(b.log) + OpeningLog(old(b.polls))
    ensures Opening(old(b.polls)).0 != 0 ==>
      && Opening(old(b.polls)).0 in {EASY, NORMAL, HARD, EXTREME}
      && Played(end, Opening(old(b.polls)).0, Expand(first, second), Opening(old(b.polls)).1,
                old(b.log) + OpeningLog(old(b.polls)), starts, logs, b.polls, played)
      && b.log == played + (if end.Finished? then FinaleLog(end.state == 2) else [])
      && b.leds == old(b.leds).(red := false, green := false, blue := false, yellow := false)
    ensures end.Finished? ==> end.difficulty == Opening(old(b.polls)).0 && end.difficulty != 0
    ensures OneButtonTrace(old(b.polls)) ==> !end.UndefinedRead?
  {
    var difficulty := Prepare(b);
    if difficulty == 0 {
      return OutOfInput, [], [], b.log;
    }
    end, starts, logs, played := Play(b, first, second, difficulty);
  }
}
