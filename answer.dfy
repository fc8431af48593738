/** GetAnswer: the player repeats the round's sequence on the buttons. Each
    pass of its loop tests red, green, blue and yellow with four separate
    `if`s, so a second button down in the same poll is compared against the
    entry after the one the first button matched. */
module Answer {
  import opened Colors
  import opened Hardware

  /** How a call of GetAnswer ends: Correct is its return value 1, Wrong its
      0; Stalled means the polls ran out, and OutOfRange that it was about
      to read sequence[i] with i outside 0..15. */
  datatype Verdict = Correct | Wrong | Stalled | OutOfRange

  /** GetAnswer's variables i and game_over. */
  datatype Scan = Scan(i: int, over: bool)

  /** One of the four `if`s: when the button of color c is down, compare
      sequence[i] with c's code, advancing i on a match and setting
      game_over otherwise. None when sequence[i] lies outside the array. */
  function Check(sequence: seq<int>, s: Scan, down: bool, c: Color): Option<Scan>
  {
    if !down then Some(s)
    else if !(0 <= s.i < |sequence|) then None
    else if sequence[s.i] == Code(c) then Some(s.(i := s.i + 1))
    else Some(s.(over := true))
  }

  /** A released button changes nothing. A pressed one fails exactly when i
      lies outside the array; otherwise i moves on by one exactly when the
      entry matches the color, and game_over is set exactly when it does not
      (or was already set). */
  lemma CheckSpec(sequence: seq<int>, s: Scan, down: bool, c: Color)
    ensures var r := Check(sequence, s, down, c);
      && (!down ==> r == Some(s))
      && (r.None? <==> down && !(0 <= s.i < |sequence|))
      && (r.Some? ==> s.i <= r.value.i <= s.i + 1 && (s.over ==> r.value.over))
      && (r.Some? && down ==> (r.value.i == s.i + 1 <==> sequence[s.i] == Code(c)))
      && (r.Some? && down ==> r.value.over == (s.over || sequence[s.i] != Code(c)))
  {
  }

  /** Check after a step that may already have failed. */
  function Then(o: Option<Scan>, sequence: seq<int>, down: bool, c: Color): (r: Option<Scan>)
    ensures o.None? ==> r.None?
    ensures o.Some? && !down ==> r == o
  {
    match o
    case None => None
    case Some(s) => Check(sequence, s, down, c)
  }

  /** One pass of GetAnswer's loop over the poll p. */
  function Step(sequence: seq<int>, s: Scan, p: Pins): (r: Option<Scan>)
    ensures !AnyDown(p) ==> r == Some(s)
  {
    var r := Check(sequence, s, Down(p, Red), Red);
    var g := Then(r, sequence, Down(p, Green), Green);
    var b := Then(g, sequence, Down(p, Blue), Blue);
    Then(b, sequence, Down(p, Yellow), Yellow)
  }

  /** The buttons down in a run of polls, poll by poll. */
  function PressesOf(polls: seq<Pins>): seq<Color> {
    if polls == [] then [] else Pressed(polls[0]) + PressesOf(polls[1..])
  }

  /** A verdict, the polls read, and the presses seen in them. */
  datatype Outcome = Outcome(verdict: Verdict, used: nat, presses: nat)

  /** GetAnswer's loop from the state s over the polls still to come. */
  function Run(sequence: seq<int>, round: int, s: Scan, polls: seq<Pins>): (r: Outcome)
    ensures r.used <= |polls|
    decreases |polls|
  {
    if !(s.i <= round && !s.over) then Outcome(if s.over then Wrong else Correct, 0, 0)
    else if polls == [] then Outcome(Stalled, 0, 0)
    else
      match Step(sequence, s, polls[0])
      case None => Outcome(OutOfRange, 1, 0)
      case Some(next) =>
        var r := Run(sequence, round, next, polls[1..]);
        Outcome(r.verdict, r.used + 1, r.presses + |Pressed(polls[0])|)
  }

  /** Run resumed after `used` polls holding `presses` presses. */
  function Resume(sequence: seq<int>, round: int, s: Scan, polls: seq<Pins>, used: nat, presses: nat): Outcome {
    var r := Run(sequence, round, s, polls);
    Outcome(r.verdict, used + r.used, presses + r.presses)
  }

  /** One pass of the loop that reads a poll and stays inside the array. */
  lemma ResumeStep(sequence: seq<int>, round: int, s: Scan, polls: seq<Pins>, used: nat, presses: nat)
    requires s.i <= round && !s.over && polls != [] && Step(sequence, s, polls[0]).Some?
    ensures Resume(sequence, round, s, polls, used, presses)
         == Resume(sequence, round, Step(sequence, s, polls[0]).value, polls[1..], used + 1, presses + |Pressed(polls[0])|)
  {
  }

  /** Unless it stops at an undefined read, the loop counts every button
      down in the polls it reads. */
  lemma {:induction false} RunPresses(sequence: seq<int>, round: int, s: Scan, polls: seq<Pins>)
    ensures var r := Run(sequence, round, s, polls);
      r.verdict != OutOfRange ==> r.presses == |PressesOf(polls[..r.used])|
    decreases |polls|
  {
    if s.i <= round && !s.over && polls != [] {
      match Step(sequence, s, polls[0])
      case None =>
      case Some(next) =>
        var r := Run(sequence, round, next, polls[1..]);
        RunPresses(sequence, round, next, polls[1..]);
        TakeCons(polls, r.used + 1);
        assert polls[..r.used + 1][1..] == polls[1..][..r.used];
    }
  }

  /** The loop waits for more polls only once it has read all of them. */
  lemma {:induction false} RunStalled(sequence: seq<int>, round: int, s: Scan, polls: seq<Pins>)
    ensures var r := Run(sequence, round, s, polls);
      r.verdict == Stalled ==> r.used == |polls|
    decreases |polls|
  {
    if s.i <= round && !s.over && polls != [] {
      match Step(sequence, s, polls[0])
      case None =>
      case Some(next) =>
        RunStalled(sequence, round, next, polls[1..]);
    }
  }

  /** n waits of t periods. */
  function Delays(t: int, n: nat): (r: seq<Event>)
    ensures |r| == n && forall k :: 0 <= k < n ==> r[k] == Delay(t)
  {
    seq(n, _ => Delay(t))
  }

  lemma DelaysAppend(o: seq<Event>, t: int, n: nat, m: nat)
    ensures o + Delays(t, n) + Delays(t, m) == o + Delays(t, n + m)
  {
    assert Delays(t, n) + Delays(t, m) == Delays(t, n + m);
  }

  /** The wait after one `if`: QUART_SEC when its button was down. */
  function PressWait(down: bool): seq<Event> {
    if down then [Delay(QUART_SEC)] else []
  }

  /** The four waits of a pass add up to one wait per button down. */
  lemma PollDelays(o: seq<Event>, p: Pins)
    ensures o + PressWait(Down(p, Red)) + PressWait(Down(p, Green)) + PressWait(Down(p, Blue))
            + PressWait(Down(p, Yellow)) == o + Delays(QUART_SEC, |Pressed(p)|)
  {
    var kr, kg, kb, ky := if Down(p, Red) then 1 else 0, if Down(p, Green) then 1 else 0,
                          if Down(p, Blue) then 1 else 0, if Down(p, Yellow) then 1 else 0;
    assert PressWait(Down(p, Red)) == Delays(QUART_SEC, kr);
    assert PressWait(Down(p, Green)) == Delays(QUART_SEC, kg);
    assert PressWait(Down(p, Blue)) == Delays(QUART_SEC, kb);
    assert PressWait(Down(p, Yellow)) == Delays(QUART_SEC, ky);
    DelaysAppend(o, QUART_SEC, kr, kg);
    DelaysAppend(o, QUART_SEC, kr + kg, kb);
    DelaysAppend(o, QUART_SEC, kr + kg + kb, ky);
    PressedCount(p);
  }

  /** One `if` of the loop body. */
  method CheckButton(b: Board, sequence: seq<int>, s: Scan, down: bool, c: Color) returns (r: Option<Scan>)
    requires b.Valid()
    modifies b`ticks, b`misses, b`log
    ensures b.Valid()
    ensures r == Check(sequence, s, down, c)
    ensures r.Some? ==> b.log == old(b.log) + PressWait(down)
  {
    var i, gameOver := s.i, s.over;
    if down {
      if !(0 <= i < |sequence|) {
        return None;
      }
      if sequence[i] == Code(c) {
        i := i + 1;
      } else {
        gameOver := true;
      }
      b.Wait(QUART_SEC);
    }
    return Some(Scan(i, gameOver));
  }

  /** One `if` of the loop body, unless an earlier one stopped the pass. */
  method ThenButton(b: Board, sequence: seq<int>, o: Option<Scan>, down: bool, c: Color) returns (r: Option<Scan>)
    requires b.Valid()
    modifies b`ticks, b`misses, b`log
    ensures b.Valid()
    ensures r == Then(o, sequence, down, c)
    ensures r.Some? ==> b.log == old(b.log) + PressWait(down)
  {
    if o.None? {
      return None;
    }
    r := CheckButton(b, sequence, o.value, down, c);
  }

  /** One pass of the loop body: the four `if`s in order. */
  method CheckPoll(b: Board, sequence: seq<int>, s: Scan, p: Pins) returns (r: Option<Scan>)
    requires b.Valid()
    modifies b`ticks, b`misses, b`log
    ensures b.Valid()
    ensures r == Step(sequence, s, p)
    ensures r.Some? ==> b.log == old(b.log) + Delays(QUART_SEC, |Pressed(p)|)
  {
    var red := CheckButton(b, sequence, s, Down(p, Red), Red);
    var green := ThenButton(b, sequence, red, Down(p, Green), Green);
    var blue := ThenButton(b, sequence, green, Down(p, Blue), Blue);
    r := ThenButton(b, sequence, blue, Down(p, Yellow), Yellow);
    if r.Some? {
      assert blue.Some? && green.Some? && red.Some?;
      PollDelays(old(b.log), p);
    }
  }

  /** The state of GetAnswer's loop after `used` polls of `all`, with
      `presses` waits logged after `start`: the rest of the loop still ends
      in `whole`. */
  ghost predicate Tracks(whole: Outcome, sequence: seq<int>, round: int, s: Scan, all: seq<Pins>, polls: seq<Pins>,
                         start: seq<Event>, log: seq<Event>, used: nat, presses: nat)
  {
    && used <= |all| && polls == all[used..]
    && log == start + Delays(QUART_SEC, presses)
    && whole == Resume(sequence, round, s, polls, used, presses)
  }

  /** The next poll to read is the next poll of `all`. */
  lemma TracksPoll(whole: Outcome, sequence: seq<int>, round: int, s: Scan, all: seq<Pins>, polls: seq<Pins>,
                   start: seq<Event>, log: seq<Event>, used: nat, presses: nat)
    requires polls != [] && Tracks(whole, sequence, round, s, all, polls, start, log, used, presses)
    ensures used < |all| && polls[0] == all[used] && polls[1..] == all[used + 1..]
  {
    DropOne(all, used);
  }

  /** A pass that stays inside the array keeps the loop on track. */
  lemma TracksStep(whole: Outcome, sequence: seq<int>, round: int, s: Scan, all: seq<Pins>, polls: seq<Pins>,
                   start: seq<Event>, log: seq<Event>, used: nat, presses: nat, log': seq<Event>)
    requires polls != [] && s.i <= round && !s.over
    requires Tracks(whole, sequence, round, s, all, polls, start, log, used, presses)
    requires used < |all| && Step(sequence, s, all[used]).Some?
    requires log' == log + Delays(QUART_SEC, |Pressed(all[used])|)
    ensures Tracks(whole, sequence, round, Step(sequence, s, all[used]).value, all, all[used + 1..], start, log',
                   used + 1, presses + |Pressed(all[used])|)
  {
    DropOne(all, used);
    ResumeStep(sequence, round, s, polls, used, presses);
    DelaysAppend(start, QUART_SEC, presses, |Pressed(polls[0])|);
  }

  /** A pass about to read outside the array ends the loop with OutOfRange. */
  lemma TracksOutOfRange(whole: Outcome, sequence: seq<int>, round: int, s: Scan, all: seq<Pins>, polls: seq<Pins>,
                         start: seq<Event>, log: seq<Event>, used: nat, presses: nat)
    requires polls != [] && s.i <= round && !s.over
    requires Tracks(whole, sequence, round, s, all, polls, start, log, used, presses)
    ensures used < |all|
    ensures Step(sequence, s, all[used]).None? ==> whole.verdict == OutOfRange
  {
    TracksPoll(whole, sequence, round, s, all, polls, start, log, used, presses);
  }

  /** Where the loop stops, the outcome is decided: Stalled when the polls
      ran out, otherwise game_over's verdict, with the polls and presses
      counted so far. */
  lemma TracksEnd(whole: Outcome, sequence: seq<int>, round: int, s: Scan, all: seq<Pins>, polls: seq<Pins>,
                  start: seq<Event>, log: seq<Event>, used: nat, presses: nat)
    requires Tracks(whole, sequence, round, s, all, polls, start, log, used, presses)
    requires !(s.i <= round && !s.over) || polls == []
    ensures whole == Outcome(if s.i <= round && !s.over then Stalled else if s.over then Wrong else Correct,
                             used, presses)
  {
  }

  /** One pass of GetAnswer's loop: read the next poll and check it. The
      waits it adds extend the `presses` waits already logged after `start`,
      and the loop's eventual outcome is unchanged; a pass that would read
      outside the array decides it as OutOfRange. */
  method Pass(b: Board, sequence: seq<int>, round: int, s: Scan, ghost whole: Outcome,
              ghost all: seq<Pins>, ghost start: seq<Event>, ghost used: nat, ghost presses: nat)
    returns (r: Option<Scan>, ghost used': nat, ghost presses': nat)
    requires b.Valid() && b.polls != [] && s.i <= round && !s.over
    requires Tracks(whole, sequence, round, s, all, b.polls, start, b.log, used, presses)
    modifies b`ticks, b`misses, b`log, b`polls
    ensures b.Valid() && used < |all| && used' == used + 1
    ensures r == Step(sequence, s, all[used])
    ensures r.None? ==> whole.verdict == OutOfRange
    ensures r.Some? ==> Tracks(whole, sequence, round, r.value, all, b.polls, start, b.log, used', presses')
  {
    ghost var polls, log := b.polls, b.log;
    TracksOutOfRange(whole, sequence, round, s, all, polls, start, log, used, presses);
    TracksPoll(whole, sequence, round, s, all, polls, start, log, used, presses);
    var p := b.Poll();
    r := CheckPoll(b, sequence, s, p);
    used', presses' := used + 1, presses + |Pressed(p)|;
    if r.Some? {
      TracksStep(whole, sequence, round, s, all, polls, start, log, used, presses, b.log);
    }
  }

  /** Waits for the player to repeat sequence[0..round]. Reads the next poll
      on every pass of the loop and waits QUART_SEC after each button it
      finds down. Nothing writes the array while it runs, so its entries
      are read from their value on entry. */
  method GetAnswer(b: Board, sequence: array<int>, round: int) returns (v: Verdict)
    requires b.Valid()
    modifies b`ticks, b`misses, b`log, b`polls
    ensures b.Valid()
    ensures var r := Run(sequence[..], round, Scan(0, false), old(b.polls));
      && v == r.verdict
      && (v != OutOfRange ==> b.polls == old(b.polls)[r.used..] && b.log == old(b.log) + Delays(QUART_SEC, r.presses))
  {
    var values := sequence[..];
    var s := Scan(0, false);
    ghost var whole := Run(values, round, s, b.polls);
    ghost var used: nat, presses: nat := 0, 0;
    while s.i <= round && !s.over
      invariant b.Valid()
      invariant Tracks(whole, values, round, s, old(b.polls), b.polls, old(b.log), b.log, used, presses)
      decreases |b.polls|
    {
      if b.polls == [] {
        TracksEnd(whole, values, round, s, old(b.polls), b.polls, old(b.log), b.log, used, presses);
        return Stalled;
      }
      var next;
      next, used, presses := Pass(b, values, round, s, whole, old(b.polls), old(b.log), used, presses);
      if next.None? {
        return OutOfRange;
      }
      s := next.value;
    }
    TracksEnd(whole, values, round, s, old(b.polls), b.polls, old(b.log), b.log, used, presses);
    v := if !s.over then Correct else Wrong;
  }

  /** The rule GetAnswer is meant to apply: the player presses the colors of
      `expected` one after the other. The verdict, and how many presses it
      takes to reach it. */
  function Judge(expected: seq<int>, presses: seq<Color>): (r: (Verdict, nat))
    ensures r.0 != OutOfRange && r.1 <= |presses| && r.1 <= |expected|
  {
    if expected == [] then (Correct, 0)
    else if presses == [] then (Stalled, 0)
    else if Code(presses[0]) != expected[0] then (Wrong, 1)
    else
      var r := Judge(expected[1..], presses[1..]);
      (r.0, r.1 + 1)
  }

  /** The first n elements of s are its head and n - 1 elements of its tail. */
  lemma TakeCons<T>(s: seq<T>, n: nat)
    requires 0 < n <= |s|
    ensures s[..n] == [s[0]] + s[1..][..n - 1]
  {
    forall k | 0 <= k < n
      ensures s[..n][k] == ([s[0]] + s[1..][..n - 1])[k]
    {
      if k > 0 {
        assert ([s[0]] + s[1..][..n - 1])[k] == s[1..][k - 1];
      }
    }
  }

  lemma CodesCons(c: Color, rest: seq<Color>)
    ensures Codes([c] + rest) == [Code(c)] + Codes(rest)
  {
  }

  /** Correct exactly when the presses begin with the expected colors, all
      of them; it then takes |expected| presses. */
  lemma {:induction false} JudgeCorrect(expected: seq<int>, presses: seq<Color>)
    ensures Judge(expected, presses).0 == Correct
            <==> |expected| <= |presses| && Codes(presses[..|expected|]) == expected
    ensures Judge(expected, presses).0 == Correct ==> Judge(expected, presses).1 == |expected|
  {
    if expected != [] && presses != [] {
      var n := |expected|;
      if n <= |presses| {
        TakeCons(presses, n);
        CodesCons(presses[0], presses[1..][..n - 1]);
        assert expected == [expected[0]] + expected[1..];
      }
      JudgeCorrect(expected[1..], presses[1..]);
    }
  }

  /** Wrong exactly at the first press that differs from the expected color:
      it then takes that press and the ones before it. */
  lemma {:induction false} JudgeWrongAt(expected: seq<int>, presses: seq<Color>, j: nat)
    requires j < |expected| && j < |presses|
    requires Codes(presses[..j]) == expected[..j] && Code(presses[j]) != expected[j]
    ensures Judge(expected, presses) == (Wrong, j + 1)
  {
    if j > 0 {
      TakeCons(presses, j);
      CodesCons(presses[0], presses[1..][..j - 1]);
      assert Code(presses[0]) == expected[0];
      assert expected[1..][..j - 1] == expected[..j][1..];
      JudgeWrongAt(expected[1..], presses[1..], j - 1);
    }
  }

  /** A Wrong verdict is reached at the first press that differs. */
  lemma {:induction false} JudgeWrong(expected: seq<int>, presses: seq<Color>)
    requires Judge(expected, presses).0 == Wrong
    ensures var n := Judge(expected, presses).1;
      && 0 < n
      && Codes(presses[..n - 1]) == expected[..n - 1]
      && Code(presses[n - 1]) != expected[n - 1]
  {
    if Code(presses[0]) == expected[0] {
      JudgeWrong(expected[1..], presses[1..]);
      var n := Judge(expected, presses).1;
      TakeCons(presses, n - 1);
      CodesCons(presses[0], presses[1..][..n - 2]);
      TakeCons(expected, n - 1);
    }
  }

  /** Stalled exactly when the presses run out while they still agree with
      the expected colors. */
  lemma {:induction false} JudgeStalled(expected: seq<int>, presses: seq<Color>)
    ensures Judge(expected, presses).0 == Stalled
            <==> |presses| < |expected| && Codes(presses) == expected[..|presses|]
    ensures Judge(expected, presses).0 == Stalled ==> Judge(expected, presses).1 == |presses|
  {
    if expected != [] && presses != [] {
      var n := |presses|;
      assert presses == [presses[0]] + presses[1..];
      CodesCons(presses[0], presses[1..]);
      if Code(presses[0]) == expected[0] {
        JudgeStalled(expected[1..], presses[1..]);
        if n < |expected| {
          TakeCons(expected, n);
        }
      } else if n < |expected| {
        assert Codes(presses)[0] != expected[..n][0];
      }
    }
  }

  /** With at most one button down, a poll checks that button alone. */
  lemma StepOne(sequence: seq<int>, s: Scan, p: Pins, c: Color)
    requires OneButton(p) && Down(p, c)
    ensures Step(sequence, s, p) == Check(sequence, s, true, c)
  {
    PressedCount(p);
  }

  /** A poll with no button down changes nothing. */
  lemma StepNone(sequence: seq<int>, s: Scan, p: Pins)
    requires !AnyDown(p)
    ensures Step(sequence, s, p) == Some(s)
  {
  }

  /** A first poll with no button down is read and changes nothing else. */
  lemma RunIdle(sequence: seq<int>, round: int, i: int, polls: seq<Pins>)
    requires 0 <= i <= round && polls != [] && !AnyDown(polls[0])
    ensures var r := Run(sequence, round, Scan(i, false), polls);
      var rest := Run(sequence, round, Scan(i, false), polls[1..]);
      r.verdict == rest.verdict && r.presses == rest.presses
    ensures PressesOf(polls) == PressesOf(polls[1..])
  {
    StepNone(sequence, Scan(i, false), polls[0]);
    assert Pressed(polls[0]) == [];
  }

  /** A first poll with the one button c down checks sequence[i] against c. */
  lemma RunPress(sequence: seq<int>, round: int, i: int, polls: seq<Pins>, c: Color)
    requires |sequence| == 16 && 0 <= i <= round < 16
    requires polls != [] && OneButton(polls[0]) && Down(polls[0], c)
    ensures var r := Run(sequence, round, Scan(i, false), polls);
      if sequence[i] == Code(c) then
        var rest := Run(sequence, round, Scan(i + 1, false), polls[1..]);
        r.verdict == rest.verdict && r.presses == rest.presses + 1
      else r.verdict == Wrong && r.presses == 1
    ensures PressesOf(polls) == [c] + PressesOf(polls[1..])
  {
    PressedCount(polls[0]);
    assert Pressed(polls[0]) == [c];
    StepOne(sequence, Scan(i, false), polls[0], c);
    var next := if sequence[i] == Code(c) then Scan(i + 1, false) else Scan(i, true);
    assert Step(sequence, Scan(i, false), polls[0]) == Some(next);
    var rest := Run(sequence, round, next, polls[1..]);
    assert Run(sequence, round, Scan(i, false), polls) == Outcome(rest.verdict, rest.used + 1, rest.presses + 1);
  }

  /** Judging a first press: Wrong at once, or the rest against the rest. */
  lemma JudgeCons(expected: seq<int>, c: Color, rest: seq<Color>)
    requires expected != []
    ensures var j := Judge(expected, [c] + rest);
      if Code(c) != expected[0] then j == (Wrong, 1)
      else j == (Judge(expected[1..], rest).0, Judge(expected[1..], rest).1 + 1)
  {
    assert ([c] + rest)[1..] == rest;
  }

  /** GetAnswer's loop from entry i reaches the verdict, and counts the
      presses, that the reference rule gives for sequence[i..round]. */
  predicate Matches(sequence: seq<int>, round: int, i: int, polls: seq<Pins>)
    requires 0 <= i <= round + 1 <= |sequence|
  {
    var r := Run(sequence, round, Scan(i, false), polls);
    var j := Judge(sequence[i..round + 1], PressesOf(polls));
    r.verdict == j.0 && r.presses == j.1
  }

  /** A first poll with no button down changes neither side. */
  lemma MatchesIdle(sequence: seq<int>, round: int, i: int, polls: seq<Pins>)
    requires |sequence| == 16 && round < 16 && 0 <= i <= round
    requires polls != [] && !AnyDown(polls[0])
    requires Matches(sequence, round, i, polls[1..])
    ensures Matches(sequence, round, i, polls)
  {
    RunIdle(sequence, round, i, polls);
  }

  /** A first poll with the one button c down: both sides stop with Wrong
      when c differs from sequence[i], and go on from i + 1 when it matches. */
  lemma MatchesPress(sequence: seq<int>, round: int, i: int, polls: seq<Pins>, c: Color)
    requires |sequence| == 16 && 0 <= i <= round < 16
    requires polls != [] && OneButton(polls[0]) && Down(polls[0], c)
    requires sequence[i] == Code(c) ==> Matches(sequence, round, i + 1, polls[1..])
    ensures Matches(sequence, round, i, polls)
  {
    var expected := sequence[i..round + 1];
    RunPress(sequence, round, i, polls, c);
    JudgeCons(expected, c, PressesOf(polls[1..]));
    assert expected[1..] == sequence[i + 1..round + 1];
  }

  /** A pass of the loop never moves i back, moves it on by at most one
      entry per button down, and keeps game_over once it is set. */
  lemma StepAdvance(sequence: seq<int>, s: Scan, p: Pins)
    ensures var r := Step(sequence, s, p);
      r.Some? ==> s.i <= r.value.i <= s.i + |Pressed(p)| && (s.over ==> r.value.over)
  {
    PressedCount(p);
    var r := Check(sequence, s, Down(p, Red), Red);
    CheckSpec(sequence, s, Down(p, Red), Red);
    if r.Some? {
      var g := Check(sequence, r.value, Down(p, Green), Green);
      CheckSpec(sequence, r.value, Down(p, Green), Green);
      if g.Some? {
        var bl := Check(sequence, g.value, Down(p, Blue), Blue);
        CheckSpec(sequence, g.value, Down(p, Blue), Blue);
        if bl.Some? {
          CheckSpec(sequence, bl.value, Down(p, Yellow), Yellow);
        }
      }
    }
  }

  /** A button that is down in a poll with some button down. */
  lemma SomeDown(p: Pins) returns (c: Color)
    requires AnyDown(p)
    ensures Down(p, c)
  {
    c := if Down(p, Red) then Red else if Down(p, Green) then Green
         else if Down(p, Blue) then Blue else Yellow;
  }

  /** With one button per poll, GetAnswer's loop from entry i judges the
      presses against sequence[i..round] by the reference rule. */
  lemma {:induction false} RunJudge(sequence: seq<int>, round: int, i: int, polls: seq<Pins>)
    requires |sequence| == 16 && round < 16 && 0 <= i <= round + 1
    requires OneButtonTrace(polls)
    ensures Matches(sequence, round, i, polls)
    decreases |polls|
  {
    if i <= round && polls != [] {
      var p := polls[0];
      OneButtonSuffix(polls, 1);
      if !AnyDown(p) {
        RunJudge(sequence, round, i, polls[1..]);
        MatchesIdle(sequence, round, i, polls);
      } else {
        var c := SomeDown(p);
        if sequence[i] == Code(c) {
          RunJudge(sequence, round, i + 1, polls[1..]);
        }
        MatchesPress(sequence, round, i, polls, c);
      }
    } else {
      MatchesEnd(sequence, round, i, polls);
    }
  }

  /** Loop and judge agree once the polls or the round's entries run out. */
  lemma MatchesEnd(sequence: seq<int>, round: int, i: int, polls: seq<Pins>)
    requires |sequence| == 16 && round < 16 && 0 <= i <= round + 1
    requires !(i <= round && polls != [])
    ensures Matches(sequence, round, i, polls)
  {
    if i <= round {
      assert PressesOf(polls) == [];
    } else {
      assert sequence[i..round + 1] == [];
    }
  }

  /** The entries GetAnswer is meant to compare: sequence[0..round]. */
  function Expected(sequence: seq<int>, round: int): (e: seq<int>)
    requires round < |sequence|
    ensures |e| == if round < 0 then 0 else round + 1
  {
    if round < 0 then [] else sequence[..round + 1]
  }

  /** With one button per poll, GetAnswer never reads outside the array and
      reaches the reference verdict: Correct when the presses spell out
      sequence[0..round], Wrong at the first press that differs. It waits
      QUART_SEC after every press it judges, and after no other. */
  lemma AnswerMatches(sequence: seq<int>, round: int, polls: seq<Pins>)
    requires |sequence| == 16 && round < 16
    requires OneButtonTrace(polls)
    ensures var r := Run(sequence, round, Scan(0, false), polls);
      var j := Judge(Expected(sequence, round), PressesOf(polls));
      r.verdict != OutOfRange && r.verdict == j.0 && r.presses == j.1
  {
    if round >= 0 {
      RunJudge(sequence, round, 0, polls);
    }
  }

  /** With one button per poll, GetAnswer stays inside the array and leaves
      polls that still have one button each. */
  lemma AnswerOneButton(sequence: seq<int>, round: int, polls: seq<Pins>)
    requires |sequence| == 16 && round < 16
    requires OneButtonTrace(polls)
    ensures var r := Run(sequence, round, Scan(0, false), polls);
      r.verdict != OutOfRange && OneButtonTrace(polls[r.used..])
  {
    AnswerMatches(sequence, round, polls);
    OneButtonSuffix(polls, Run(sequence, round, Scan(0, false), polls).used);
  }

  /** With one button per poll, the verdict depends on sequence[0..round] only. */
  lemma AnswerReadsRound(s1: seq<int>, s2: seq<int>, round: int, polls: seq<Pins>)
    requires |s1| == 16 && |s2| == 16 && 0 <= round < 16
    requires s1[..round + 1] == s2[..round + 1]
    requires OneButtonTrace(polls)
    ensures Run(s1, round, Scan(0, false), polls).verdict == Run(s2, round, Scan(0, false), polls).verdict
  {
    AnswerMatches(s1, round, polls);
    AnswerMatches(s2, round, polls);
  }

  /** Polls with only red down, and with red and green down together. */
  const RedOnly := Pins(false, true, true, true)
  const RedGreen := Pins(false, false, true, true)

  lemma {:induction false} ReadPastEndFrom(i: nat)
    requires i <= 15
    ensures Run(seq(16, _ => 0), 15, Scan(i, false), seq(15 - i, _ => RedOnly) + [RedGreen]).verdict == OutOfRange
    decreases 15 - i
  {
    var polls := seq(15 - i, _ => RedOnly) + [RedGreen];
    if i < 15 {
      assert polls[0] == RedOnly;
      assert polls[1..] == seq(15 - (i + 1), _ => RedOnly) + [RedGreen];
      ReadPastEndFrom(i + 1);
    } else {
      assert polls == [RedGreen];
    }
  }

  /** Two buttons in one poll: in the last round of a sixteen-round game,
      red then red-and-green makes GetAnswer read sequence[16]. */
  lemma TwoButtonsReadPastEnd()
    ensures Run(seq(16, _ => 0), 15, Scan(0, false), seq(15, _ => RedOnly) + [RedGreen]).verdict == OutOfRange
  {
    ReadPastEndFrom(0);
  }

  /** Two buttons in one poll: in round 0 the green press is judged against
      sequence[1], so the verdict depends on an entry the player was not shown. */
  lemma TwoButtonsJudgedPastRound()
    ensures var s1 := seq(16, _ => 0);
      var s2 := [0, 1] + seq(14, _ => 0);
      && s1[..1] == s2[..1]
      && Run(s1, 0, Scan(0, false), [RedGreen]).verdict == Wrong
      && Run(s2, 0, Scan(0, false), [RedGreen]).verdict == Correct
  {
    var s1 := seq(16, _ => 0);
    var s2 := [0, 1] + seq(14, _ => 0);
    assert s1[0] == 0 && s1[1] == 0;
    assert s2[0] == 0 && s2[1] == 1;
  }
}
