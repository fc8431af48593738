# 4-LED memory game, modelled in Dafny

The firmware runs on an MSP430 launchpad with four colored LEDs (red, green,
blue, yellow), four buttons and an on-board green status LED. The player
starts a game with the red button. The firmware then samples the
free-running timer A1 and asks for a difficulty: green 8 rounds, blue 10,
yellow 12, red 16. It samples timer A2 and expands the two 16-bit samples
into a sequence of 16 color codes (0 red, 1 green, 3 blue, 4 yellow).
Round `r` plays the first `r + 1` entries on the LEDs, and the player must
repeat them on the buttons. A correct answer flashes the status LED. The
game ends after `difficulty` correct rounds with the Win display, or at the
first wrong press with the Loss display.

The model follows the C code routine by routine:

- `Colors`: the color codes and the color each code names.
- `SequenceBuilder`: `MakeSequence` as two loops over arrays. It is proved
  equal to the pure function `Expand`, and `Expand` is proved range-correct,
  bit-exact, injective on 16-bit pairs and invertible (`Recover`).
- `Hardware`: the board.
  - A `Board` class holds the LED bits (`Lamps`, one boolean per LED; RED_LED
    and BLUE_LED have the same mask 0x40 on different ports).
  - Timer A0's overflow flag is modelled by `gap`: how many clear readings
    of TAIFG precede each overflow. `ticks` counts the overflows seen.
  - The button inputs are a finite sequence of polls, one per pass of a
    polling loop.
  - A ghost `log` records every LED write and every finished `Wait`.
    `Valid()` ties the overflows seen to the waits logged.
- `Display`: `BlinkLeds`, `CorrectAnswer`, `Win` and `Loss`, each proved to
  append a stated list of events to the log and to leave a stated LED state.
  Lemmas give the LEDs each list lights, in order, and its length in timer
  periods.
- `Input`: `Reset` and `ChooseDifficulty`, as busy-wait loops over the polls.
- `Answer`: `GetAnswer`.
  - The method is proved equal to the function `Run`, which is one `Step`
    per poll, four `Check`s per step.
  - When each poll has at most one button down, `Run` agrees with the
    reference judge `Judge`. `Judge` compares the presses with
    `sequence[0..round]` and is characterised exactly by `JudgeCorrect`,
    `JudgeWrong` and `JudgeStalled`.
- `Game`: the body of `main`'s loop, covering one game from `Reset` to the
  Win or Loss display. `PlayGame` takes the two timer samples as parameters.
  - The game loop keeps the invariant `Progress`: `round` counts the correct
    answers and stays within `[0, difficulty]`. The loop ends with
    game_state 2 exactly when `round == difficulty`.
  - The predicate `Chain` links the rounds played. Round k takes its answer
    from the polls the previous round left, and its verdict is `Run`'s
    verdict on them. The log grows by that round's `TurnLog`: the playback,
    one QUART_SEC wait per press and the closing waits and flashes.
  - The predicate `Played` states what the loop did for each way it can end:
    a finished game is concluded and its rounds chain; a game that ran out
    of polls had correct rounds and then one that read every poll; a game
    stopped by an undefined read had correct rounds and then one whose
    GetAnswer reads outside the array.
  - `Opening` and `OpeningLog` say what the start of a game makes of the
    polls and what it shows. `FinaleLog` says what the end shows.

The busy-wait routines stop when the polls run out. `Reset` then reports
`started == false`, `ChooseDifficulty` returns 0 and `GetAnswer` returns
`Stalled`. `GetAnswer` returns `OutOfRange` when it is about to read
`sequence[i]` with `i` outside 0..15.

Each pass of GetAnswer's loop tests the four buttons with independent `if`s.
So a second button held in the same poll is compared with the entry after
the one the first button matched. At round 15 this reads `sequence[16]`;
`TwoButtonsReadPastEnd` gives such a trace. At a lower round it compares a
press with an entry past the round; `TwoButtonsJudgedPastRound` gives two
sequences that agree up to the round but get different verdicts for the same
poll. With one button per poll, `AnswerMatches` and `AnswerReadsRound` show
that neither can happen, and `Game.Rounds` never ends in `UndefinedRead`.

Three behaviours of the C code are easy to misread, and the model keeps
them as written:

- A poll with several buttons down counts every one of them, not only the
  first in scan order.
- There is no wait for a button's release, so a button still held after the
  QUART_SEC wait counts again at the next poll.
- ChooseDifficulty scans green, blue, yellow, red. Every button found down
  plays its confirmation and overwrites `x`, so the last one wins; with the
  codes 8 < 10 < 12 < 16 that is the largest level held.

Several definitions describe what the board shows or what a loop keeps,
and carry no contract of their own: `Display.BlinkOf`, `Display.Playback`,
`Display.Flashes`, `Display.WinCycle`, `Display.LossCycle`,
`Input.Prompt`, `Input.Confirm`, `Input.Selection`, `Input.Chosen`,
`Hardware.Cost`, `Hardware.Duration`, `Game.Progress`, `Game.Concluded`,
`Game.Chain`, `Game.Played` and the `*Log` functions of `Game`. The table below names the
members whose contracts state them: BlinkLeds, CorrectAnswer, Win, Loss,
ChooseDifficulty, Board.Wait and Rounds, and the lemmas beside them.

## Model

| member | source | states |
|---|---|---|
| Colors.Code | 4led_memory_game.c:336-361 | the code of every color is one of 0, 1, 3, 4 (the cases of BlinkLeds' switch) |
| Colors.ColorOf | 4led_memory_game.c:336-361 | a code names a color exactly when it is 0, 1, 3 or 4, and that color's code is the code itself; any other value matches no case |
| Colors.CodeInjective | 4led_memory_game.c:336-361 | different colors have different codes, and each color's code names it back |
| SequenceBuilder.Bit | 4led_memory_game.c:290-291 | `(x >> i) & 0x01` is 0 or 1, also for a negative (16-bit signed) value |
| SequenceBuilder.Word | 4led_memory_game.c:190-195 | the 16-bit register value holding an int: equal to it modulo 0x10000 |
| SequenceBuilder.Shr | 4led_memory_game.c:290-291 | `x >> k` stays between 0 and x for x >= 0 and between x and -1 for x < 0 (arithmetic shift) |
| SequenceBuilder.Expand | 4led_memory_game.c:288-297 | the combined array has 16 entries, each 0, 1, 3 or 4 |
| SequenceBuilder.ColorsOf | 4led_memory_game.c:288-297 | the 16 entries are the codes of 16 colors |
| SequenceBuilder.MakeSequence | 4led_memory_game.c:282-298 | the two loops leave in `sequence` exactly `Expand(first, second)`: entry k is bit 15 - k of first plus 3 times bit 15 - k of second |
| SequenceBuilder.HighBits | 4led_memory_game.c:290-291 | the top n bits of a 16-bit word, most significant first, as the bit-reversed array holds them |
| SequenceBuilder.AllOnesSixteen | 4led_memory_game.c:290-291 | sixteen one bits make 0xFFFF |
| SequenceBuilder.ShrAllOnes | 4led_memory_game.c:290-291 | shifting a run of n one bits right by k leaves n - k one bits |
| SequenceBuilder.ShrMonotonic | 4led_memory_game.c:290-291 | the right shift of non-negative values keeps their order |
| SequenceBuilder.ShrSixteen | 4led_memory_game.c:290-291 | a 16-bit word shifted right 16 places is 0 |
| SequenceBuilder.ShrStep | 4led_memory_game.c:290-291 | adding 2^n to a value adds 2^(n-i) to its shift by i |
| SequenceBuilder.BitPeriod | 4led_memory_game.c:290-291 | bits 0..15 do not change when 0x10000 is added |
| SequenceBuilder.LowBitsOnly | 4led_memory_game.c:290-291 | bits 0..15 of an int are those of its 16-bit word, negative values included |
| SequenceBuilder.ExpandWords | 4led_memory_game.c:288-297 | only the low 16 bits of either input affect the sequence |
| SequenceBuilder.PackHighBits | 4led_memory_game.c:290-291 | reading the bit-reversed array back as a binary number gives the top bits of the word |
| SequenceBuilder.RecoverExpand | 4led_memory_game.c:290-296 | the two 16-bit samples are recovered from the sequence (code c gives bit c % 3 of first and c / 3 of second) |
| SequenceBuilder.Recover | 4led_memory_game.c:290-296 | reading the two bit arrays back out of a sequence gives two 16-bit values |
| SequenceBuilder.ExpandInjective | 4led_memory_game.c:290-296 | two input pairs give the same sequence if and only if their low 16 bits agree |
| SequenceBuilder.ExpandLocal | 4led_memory_game.c:290-296 | entry k depends on bit 15 - k of each input and on nothing else, in both directions |
| SequenceBuilder.ShrZero | 4led_memory_game.c:290-291 | zero shifted stays zero |
| SequenceBuilder.AlternatingEight | 4led_memory_game.c:290-291 | eight pairs of bits 01 make 0x5555 |
| SequenceBuilder.ShrAlternating | 4led_memory_game.c:290-291 | shifting 0101… right by an even or odd amount gives 0101… or 1010… |
| SequenceBuilder.ShrDouble | 4led_memory_game.c:290-291 | shifting 2x right by k + 1 is shifting x by k |
| SequenceBuilder.UniformColors | 4led_memory_game.c:288-297 | inputs whose 16 bits are constant give one color throughout |
| SequenceBuilder.UniformSequences | 4led_memory_game.c:288-297 | (0, 0) gives 16 red, (0xFFFF, 0) 16 green, (0, 0xFFFF) 16 blue, (0xFFFF, 0xFFFF) 16 yellow |
| SequenceBuilder.AlternatingPair | 4led_memory_game.c:290-291 | the bits of 0x5555 and 0xAAAA at positions 2j and 2j + 1 |
| SequenceBuilder.AlternatingBit | 4led_memory_game.c:290-291 | bit i of 0x5555 is 1 exactly for even i, of 0xAAAA exactly for odd i |
| SequenceBuilder.AlternatingSequence | 4led_memory_game.c:288-297 | (0x5555, 0xAAAA) gives the sequence 3, 1, 3, 1, … (blue, green alternating) |
| Hardware.Lamps.With | 4led_memory_game.c:174 | setting or clearing one LED bit gives that LED the new level, and every other LED keeps its level |
| Hardware.LedOf | 4led_memory_game.c:38-46 | each button's LED is one of the four game LEDs, never the status LED |
| Hardware.ReadPinsDown | 4led_memory_game.c:382 | the test `(PxIN & BTN) == 0` on the input registers is the button being down, for each of the four buttons and their ports |
| Hardware.Pressed | 4led_memory_game.c:382-413 | the buttons down in one poll, in scan order: a color is listed exactly when its button is down |
| Hardware.PressedCount | 4led_memory_game.c:382-413 | the number of buttons down in a poll counts each of the four tests |
| Hardware.OneButtonSuffix | 4led_memory_game.c:380 | a trace with at most one button per poll keeps that property after any polls are read |
| Hardware.DurationAppend | 4led_memory_game.c:307-320 | the timer periods of two runs of events add up |
| Hardware.RepeatDuration | 4led_memory_game.c:443-476 | a run repeated n times takes n times as many timer periods |
| Hardware.Board.constructor | 4led_memory_game.c:88-110 | a board after bring-up: the LEDs as the output latches hold them at power-up (bring-up writes no LED bit), nothing shown, no overflow seen |
| Hardware.Board.Wait | 4led_memory_game.c:307-320 | for t >= 0 the loop returns after exactly t + 1 overflows, each cleared after it is seen; readings that find TAIFG clear do not count; for t < 0 it sees none |
| Hardware.Board.SetLed | 4led_memory_game.c:338 | `PxOUT |= LED` lights that LED and changes no other |
| Hardware.Board.ClearLed | 4led_memory_game.c:340 | `PxOUT &= ~LED` darkens that LED and changes no other |
| Hardware.Board.ToggleLed | 4led_memory_game.c:431 | `PxOUT ^ LED` flips that LED and changes no other |
| Hardware.Board.Poll | 4led_memory_game.c:382 | reading the buttons consumes the next poll |
| Display.PulseLights | 4led_memory_game.c:338-341 | a blink lights its LED once |
| Display.PulseDuration | 4led_memory_game.c:338-341 | a blink takes lit + 1 and dark + 1 timer periods |
| Display.AfterBlink | 4led_memory_game.c:336-361 | after the playback a game LED is on exactly when it was on before and its code was not played; the status LED is untouched; LEDs that start dark stay dark |
| Display.LightedAppend | 4led_memory_game.c:333-366 | the LEDs lit by two runs of events, one after the other |
| Display.PlaybackLights | 4led_memory_game.c:333-366 | the playback of valid codes lights exactly their LEDs, in order, one per entry |
| Display.PlaybackDuration | 4led_memory_game.c:333-366 | the playback takes BLINK + 1 + PAUSE + 1 timer periods per entry |
| Display.Hold | 4led_memory_game.c:338-339 | one LED write followed by a Wait |
| Display.Pulse | 4led_memory_game.c:338-341 | LED on, Wait(lit), LED off, Wait(dark); that LED ends off |
| Display.Blink | 4led_memory_game.c:336-361 | one pass of the switch: a valid code blinks its LED for BLINK and pauses for PAUSE, any other code does nothing |
| Display.BlinkLeds | 4led_memory_game.c:329-367 | the board shows exactly the playback of `sequence[0..round]` (one entry when round < 0), and the LEDs end as `AfterBlink` says |
| Display.FlashesDuration | 4led_memory_game.c:429-433 | n toggles each followed by Wait(CENTI_SEC) take n * (CENTI_SEC + 1) periods |
| Display.OddMod | 4led_memory_game.c:429-433 | counting toggles one by one gives the parity n % 2 |
| Display.Flash | 4led_memory_game.c:431-432 | one toggle and one Wait(CENTI_SEC) |
| Display.Flicker | 4led_memory_game.c:215-219 | n toggles of an LED with CENTI_SEC waits; the LED ends flipped exactly when n is odd |
| Display.CorrectAnswer | 4led_memory_game.c:426-434 | eight toggles of the status LED with CENTI_SEC waits; every LED ends as it started |
| Display.Win | 4led_memory_game.c:440-462 | three passes of red, green, blue, yellow each on and off for CENTI_SEC; the four game LEDs end off |
| Display.Loss | 4led_memory_game.c:467-478 | three red blinks of HALF_SEC on and QUART_SEC off, then Wait(ONE_SEC); red ends off |
| Display.WinCycleShows | 4led_memory_game.c:445-460 | one pass of Win lights red, green, blue, yellow in that order and takes 88 timer periods |
| Display.RepeatLighted | 4led_memory_game.c:443-461 | a run repeated n times lights its LEDs n times over |
| Display.WinShows | 4led_memory_game.c:440-462 | Win lights red, green, blue, yellow three times over, in 264 timer periods |
| Display.LossShows | 4led_memory_game.c:467-478 | Loss lights red three times and takes 3 * 77 + 101 timer periods |
| Input.FirstWith | 4led_memory_game.c:176-183 | the first poll that satisfies a test: it does, and none before it does |
| Input.Reset | 4led_memory_game.c:172-184 | red goes on; the routine returns right after the first poll with red down, having switched red off; if no such poll comes it stops with red on |
| Input.Difficulty | 4led_memory_game.c:208-253 | x stays 0 exactly when no button is down; otherwise it is the level of a button that is down and at least the level of every button down |
| Input.Level | 4led_memory_game.c:214-247 | each button selects one of the four levels 8, 10, 12, 16 |
| Input.Choose | 4led_memory_game.c:212-219 | one branch of the scan: the three prompt LEDs off, then the chosen LED toggled eight times |
| Input.ScanButtons | 4led_memory_game.c:210-253 | one pass of the scan: x and the display for every button down in the poll, in the order green, blue, yellow, red |
| Input.LightPrompt | 4led_memory_game.c:204-205 | green, blue and yellow go on |
| Input.AwaitChoice | 4led_memory_game.c:208-254 | the wait loop reads polls up to and including the first with a button down and returns its `Difficulty`, after showing that poll's confirmations and switching the prompt LEDs off; with no such poll it reads them all, shows nothing and returns 0 |
| Input.ChooseDifficulty | 4led_memory_game.c:202-256 | returns `Difficulty` of the first poll with a button down, which is one of 8, 10, 12, 16, and consumes the polls up to that one; the log grows by the prompt and that poll's confirmations; the prompt LEDs end off; with no such poll it returns 0, reads every poll, and the prompt stays lit |
| Answer.Run | 4led_memory_game.c:380-420 | the loop reads no more polls than there are |
| Answer.RunStalled | 4led_memory_game.c:380-414 | the loop is left waiting for a button only after it has read every poll |
| Answer.CheckSpec | 4led_memory_game.c:382-389 | a released button changes nothing; a pressed one fails exactly when i lies outside the array; otherwise i moves on by one exactly when the entry is the color's code, and game_over is set exactly when it is not (or already was) |
| Answer.Then | 4led_memory_game.c:390-413 | the later `if`s of a pass do nothing after a failed read, and nothing for a released button |
| Answer.Step | 4led_memory_game.c:382-413 | a pass over a poll with no button down leaves i and game_over unchanged |
| Answer.StepAdvance | 4led_memory_game.c:382-413 | a pass never moves i back, moves it by at most one entry per button down, and keeps game_over once set |
| Answer.ResumeStep | 4led_memory_game.c:380-414 | a pass of the loop that stays inside the array moves one poll further |
| Answer.RunPresses | 4led_memory_game.c:380-414 | unless it stops at an undefined read, the loop counts every button down in the polls it reads |
| Answer.PollDelays | 4led_memory_game.c:382-413 | the four `if`s of a pass wait QUART_SEC once per button down |
| Answer.CheckButton | 4led_memory_game.c:382-389 | one `if` of the pass as `Check` says, followed by Wait(QUART_SEC) when the button is down |
| Answer.ThenButton | 4led_memory_game.c:390-397 | a later `if` of the pass, run only when the pass has not failed |
| Answer.CheckPoll | 4led_memory_game.c:382-413 | the four `if`s over one poll as `Step` says, with one QUART_SEC wait per button down |
| Answer.Pass | 4led_memory_game.c:380-414 | one pass of the loop reads one poll and leaves the rest of the run unchanged |
| Answer.TracksPoll | 4led_memory_game.c:380-382 | the poll each pass reads is the next unread one |
| Answer.TracksStep | 4led_memory_game.c:380-414 | a pass that stays inside the array keeps the loop on course for `Run`'s outcome, one poll and its waits further on |
| Answer.TracksOutOfRange | 4led_memory_game.c:384 | a pass about to read outside the array decides the outcome as OutOfRange |
| Answer.TracksEnd | 4led_memory_game.c:380-420 | when the loop stops, the outcome is Stalled if the polls ran out, else 1 or 0 from game_over, with the polls and presses counted |
| Answer.GetAnswer | 4led_memory_game.c:375-421 | returns `Run`'s verdict over the polls: 1 (Correct) when the loop ends with game_over 0, 0 (Wrong) otherwise; it consumes exactly the polls `Run` reads and waits QUART_SEC once per press |
| Answer.Judge | 4led_memory_game.c:380-420 | the reference judge of a list of presses against the expected codes: it never reads out of range and uses no more presses or entries than there are |
| Answer.JudgeCorrect | 4led_memory_game.c:416-417 | the answer is correct exactly when the first presses are the expected codes, having used one press per entry |
| Answer.JudgeWrongAt | 4led_memory_game.c:386-387 | the first press that differs from its entry ends the answer as wrong at that press |
| Answer.JudgeWrong | 4led_memory_game.c:419-420 | a wrong answer has matched every press before the last one, which differs |
| Answer.JudgeStalled | 4led_memory_game.c:380 | the judge waits for more presses exactly when the presses so far are a proper prefix of the expected codes |
| Answer.StepOne | 4led_memory_game.c:382-413 | a poll with one button down is one `Check` of that color |
| Answer.StepNone | 4led_memory_game.c:382-413 | a poll with no button down changes nothing |
| Answer.RunIdle | 4led_memory_game.c:380-414 | a poll with no button down is skipped |
| Answer.RunPress | 4led_memory_game.c:380-414 | with one button down, a match moves to the next entry and a mismatch ends the answer as wrong |
| Answer.JudgeCons | 4led_memory_game.c:384-387 | the judge takes the presses one at a time |
| Answer.MatchesIdle | 4led_memory_game.c:380-414 | agreement of loop and judge survives a poll with no button down |
| Answer.MatchesPress | 4led_memory_game.c:380-414 | agreement of loop and judge survives a poll with one button down |
| Answer.RunJudge | 4led_memory_game.c:380-420 | with at most one button down per poll, the loop from any position within the round agrees with the judge on the rest of the round |
| Answer.MatchesEnd | 4led_memory_game.c:380 | loop and judge agree once the polls or the round's entries run out |
| Answer.Expected | 4led_memory_game.c:380 | the entries compared in round r: sequence[0..r], r + 1 of them |
| Answer.AnswerMatches | 4led_memory_game.c:375-421 | with at most one button down per poll, GetAnswer never leaves the array and returns 1 exactly when the presses repeat sequence[0..round], 0 at the first mismatching press, and waits once per press judged |
| Answer.AnswerOneButton | 4led_memory_game.c:375-421 | with at most one button down per poll, GetAnswer stays inside the array, and the polls it leaves still have one button each |
| Answer.AnswerReadsRound | 4led_memory_game.c:380-414 | with at most one button down per poll, the verdict depends only on sequence[0..round] |
| Answer.ReadPastEndFrom | 4led_memory_game.c:390-392 | from any entry of an all-red sequence at round 15, red presses and a final red-and-green poll read past the array |
| Answer.TwoButtonsReadPastEnd | 4led_memory_game.c:382-396 | a poll with red and green down after fifteen red presses makes GetAnswer read sequence[16] |
| Answer.TwoButtonsJudgedPastRound | 4led_memory_game.c:382-396 | at round 0, one red-and-green poll is judged against entry 1 too: two sequences with the same entry 0 get different verdicts |
| Game.RoundShowsColors | 4led_memory_game.c:127-136 | every round lights the colors MakeSequence chose, one LED per entry, in order |
| Game.Show | 4led_memory_game.c:135-139 | Wait(ONE_SEC), the playback of sequence[0..round], Wait(TEN_MS); the LEDs end as they started |
| Game.Close | 4led_memory_game.c:141-149 | Wait(TEN_MS), CorrectAnswer only after a correct answer, Wait(TEN_MS); the LEDs end as they started |
| Game.Turn | 4led_memory_game.c:135-149 | one pass of the game loop returns `Run`'s verdict on the polls; unless it stops at an undefined read it consumes exactly the polls `Run` reads and the log grows by `TurnLog`: Wait(ONE_SEC), the playback of sequence[0..round], Wait(TEN_MS), one QUART_SEC wait per press, Wait(TEN_MS), the eight status flashes after a correct answer, Wait(TEN_MS); with one button per poll it never reads out of range; the LEDs end as they started |
| Game.Prepare | 4led_memory_game.c:116-123 | Reset, Wait(QUART_SEC), ChooseDifficulty: the difficulty and the polls left are `Opening` of the polls (the first poll with red down starts the game, the first later poll with a button down picks the level), and the log grows by `OpeningLog`; the difficulty is 0 or one of 8, 10, 12, 16, and when it is not 0 all four game LEDs end off |
| Game.OpeningZero | 4led_memory_game.c:172-256 | the difficulty is 0 exactly when no poll with red down is followed by a poll with a button down, and otherwise one of 8, 10, 12, 16 |
| Game.ChoiceOf | 4led_memory_game.c:202-256 | what ChooseDifficulty returns and leaves is `Choice` of the polls, and it is 0 exactly when no poll has a button down |
| Game.Pick | 4led_memory_game.c:119-123 | Wait(QUART_SEC) and ChooseDifficulty: the difficulty and the polls left are `Choice` of the polls, and the log grows by the wait, the prompt and the confirmations |
| Game.Advance | 4led_memory_game.c:144-153 | a Correct or Wrong round keeps the loop invariant: round counts the correct answers, stays in [0, difficulty], and game_state is 2 exactly when round reaches difficulty and 0 after a wrong answer |
| Game.ChainStep | 4led_memory_game.c:132-154 | the next round of the loop links on from where the last one stopped: its verdict is `Run` on the polls left, and it adds its `TurnLog` to the log |
| Game.ChainExtend | 4led_memory_game.c:132-154 | a chain of rounds grows by any round that starts where it stopped |
| Game.PlayRound | 4led_memory_game.c:135-149 | one pass of the loop body returns `Run`'s verdict on the polls it found; unless that is OutOfRange it adds one round to the chain and leaves the polls and log of the next round, and a round left waiting has read every poll; the LEDs end as they started |
| Game.Rounds | 4led_memory_game.c:130-154 | `Played` for every way the loop ends: Finished with game_state 2 exactly when round == difficulty, and 0 with round < difficulty after exactly one wrong answer, each answer being GetAnswer's verdict on the polls the previous round left and the log growing round by round by `TurnLog`; OutOfInput only after correct rounds and a last round that read every poll; UndefinedRead only after correct rounds and a last round whose GetAnswer reads outside the array; never more rounds than the difficulty, and with one button per poll no read leaves the array |
| Game.StalledPlayed | 4led_memory_game.c:132-154 | a round whose polls ran out after correct rounds ends the game loop as OutOfInput |
| Game.UndefinedPlayed | 4led_memory_game.c:132-154 | a round about to read outside the array after correct rounds ends the game loop as UndefinedRead, with the chain of the rounds before it |
| Game.Play | 4led_memory_game.c:126-164 | MakeSequence, then the game loop over `Expand(first, second)` with `Played` for every end as `Rounds` states it, then, for a finished game, the Win display after game_state 2 and the Loss display after 0, as `FinaleLog`; the LEDs end as they started |
| Game.Finale | 4led_memory_game.c:155-164 | Win after a won game and Loss after a lost one, as `FinaleLog`; Win leaves the four game LEDs off, Loss leaves red off, and dark LEDs stay dark |
| Game.PlayGame | 4led_memory_game.c:116-164 | one game: no difficulty chosen gives OutOfInput after `OpeningLog`; otherwise the difficulty is the one `Opening` picks, the game loop over `Expand(first, second)` starts from the polls and log the opening left and satisfies `Played` however it ends, a finished game then shows Win or Loss as `FinaleLog`, and the four game LEDs end off |

## Left out

- Board bring-up (watchdog, PM5CTL0, timer control words, TA0CCR0, port directions and pull-ups, 4led_memory_game.c:88-110): configuration with no behaviour; bring-up writes no LED bit, so the `Board` constructor takes the LED state at power-up as a parameter.
- Real time and clock frequencies: `Wait` counts overflows of timer A0, not milliseconds. When each overflow comes is the parameter `gap`.
- GetFirstNumber and GetSecondNumber (4led_memory_game.c:190-195, 262-267): the values of TA1R and TA2R are hardware reads. `PlayGame` takes them as the parameters `first` and `second`.
- The outer `while(1)` (4led_memory_game.c:113): `PlayGame` is one pass of it; the next game is the next call.
- Liveness of the busy-wait loops in Reset, ChooseDifficulty and GetAnswer: it depends on a player pressing a button. Each loop reads a finite list of polls and stops when they run out.
- The other bits of P1OUT, P2OUT, P3OUT and P9OUT (the pull-up bits and unused pins): LED writes are read-modify-write and keep them. The model holds the LED bits only.
- The single writes `P2OUT |= (BLUE_LED | YELLOW_LED)` (4led_memory_game.c:205) and `P2OUT &= ~(BLUE_LED | YELLOW_LED)` are each modelled as two events, blue then yellow (`On` for the first, `Off` for the second). The LED state after each is the same.
- The `{0.0}` initialisers (4led_memory_game.c:126, 285-286) only zero the arrays; MakeSequence overwrites every entry.
- Display.BlinkLeds: the LEDs end as they started only when they start off, which is how the game calls it; an LED already lit whose code is played ends off, and the contract says so.
- Answer.GetAnswer: when it stops at an undefined read of sequence[16], the contract does not state the polls consumed or the display. The C code would read whatever lies past the array.
