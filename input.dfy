/** The three routines that wait for the player: Reset (the start button),
    ChooseDifficulty and GetAnswer. Each busy-waits on the button inputs;
    here each pass of such a loop reads the next poll of Board.polls, and a
    routine that runs out of polls stops. */
module Input {
  import opened Colors
  import opened Hardware
  import opened Display

  // The number of rounds that wins a game at each level
  const EASY := 8
  const NORMAL := 10
  const HARD := 12
  const EXTREME := 16

  predicate RedDown(p: Pins) {
    Down(p, Red)
  }

  /** The position of the first poll that satisfies f, or |polls| when none does. */
  function FirstWith(polls: seq<Pins>, f: Pins -> bool): (k: nat)
    ensures k <= |polls|
    ensures k < |polls| ==> f(polls[k])
    ensures forall j :: 0 <= j < k ==> !f(polls[j])
  {
    if polls == [] then 0 else if f(polls[0]) then 0 else 1 + FirstWith(polls[1..], f)
  }

  /** Scanning the polls one at a time: poll i either is the first to
      satisfy f or lies before it. */
  lemma FirstWithNext(polls: seq<Pins>, f: Pins -> bool, i: nat)
    requires i < |polls| && i <= FirstWith(polls, f)
    ensures f(polls[i]) ==> FirstWith(polls, f) == i
    ensures !f(polls[i]) ==> i < FirstWith(polls, f)
  {
  }

  /** Lights the red LED and waits for the red button; the LED goes off when
      it is pressed. `started` is false when the polls ran out first. */
  method Reset(b: Board) returns (started: bool)
    requires b.Valid()
    modifies b`leds, b`log, b`polls
    ensures b.Valid()
    ensures var k := FirstWith(old(b.polls), RedDown);
      && started == (k < |old(b.polls)|)
      && b.polls == old(b.polls)[if started then k + 1 else k..]
      && b.log == old(b.log) + (if started then [On(RedLed), Off(RedLed)] else [On(RedLed)])
    ensures b.leds == old(b.leds).With(RedLed, !started)
  {
    b.SetLed(RedLed);
    var x := 0;
    ghost var seen := 0;
    while x < 1
      invariant b.Valid()
      invariant seen <= |old(b.polls)| && b.polls == old(b.polls)[seen..]
      invariant x == 0 || x == 1
      invariant seen - x <= FirstWith(old(b.polls), RedDown)
      invariant x == 1 ==> FirstWith(old(b.polls), RedDown) == seen - 1
      invariant b.leds == old(b.leds).With(RedLed, x == 0)
      invariant b.log == old(b.log) + [On(RedLed)] + (if x == 1 then [Off(RedLed)] else [])
      decreases |b.polls| + 1 - x
    {
      if b.polls == [] {
        return false;
      }
      var p := b.Poll();
      FirstWithNext(old(b.polls), RedDown, seen);
      seen := seen + 1;
      if RedDown(p) {
        b.ClearLed(RedLed);
        x := 1;
      }
    }
    return true;
  }

  /** The difficulty each button selects. */
  function Level(c: Color): (x: int)
    ensures x == EASY || x == NORMAL || x == HARD || x == EXTREME
  {
    match c
    case Green => EASY
    case Blue => NORMAL
    case Yellow => HARD
    case Red => EXTREME
  }

  /** The value ChooseDifficulty's scan leaves in x for one poll: it tests
      green, blue, yellow and red in turn, and each button found down
      overwrites x. */
  function Difficulty(p: Pins): (x: int)
    ensures x == 0 <==> !AnyDown(p)
    ensures AnyDown(p) ==> exists c :: Down(p, c) && x == Level(c)
    ensures forall c :: Down(p, c) ==> Level(c) <= x
  {
    var x := 0;
    var x := if Down(p, Green) then EASY else x;
    var x := if Down(p, Blue) then NORMAL else x;
    var x := if Down(p, Yellow) then HARD else x;
    if Down(p, Red) then EXTREME else x
  }

  /** The three prompt LEDs switched on, as ChooseDifficulty begins. */
  function Prompt(): seq<Event> {
    [On(GreenLed), On(BlueLed), On(YellowLed)]
  }

  /** What one branch of the scan shows: the prompt LEDs off, then the chosen
      LED toggled eight times. */
  function Confirm(led: Led): seq<Event> {
    [Off(GreenLed), Off(BlueLed), Off(YellowLed)] + Flashes(led, 8)
  }

  /** What the scan shows for one poll. */
  function Selection(p: Pins): seq<Event> {
    (if Down(p, Green) then Confirm(GreenLed) else [])
    + (if Down(p, Blue) then Confirm(BlueLed) else [])
    + (if Down(p, Yellow) then Confirm(YellowLed) else [])
    + (if Down(p, Red) then Confirm(RedLed) else [])
  }

  /** What ChooseDifficulty shows after its prompt: the confirmations of the
      first poll with a button down, or nothing when there is none. */
  function Chosen(polls: seq<Pins>): seq<Event> {
    var k := FirstWith(polls, AnyDown);
    if k == |polls| then [] else Selection(polls[k])
  }

  lemma Concat4<T>(o: seq<T>, a: seq<T>, b: seq<T>, c: seq<T>, d: seq<T>)
    ensures o + (a + b + c + d) == o + a + b + c + d
  {
  }

  /** One branch of the scan, without the assignment to x. */
  method Choose(b: Board, led: Led)
    requires b.Valid()
    modifies b`leds, b`ticks, b`misses, b`log
    ensures b.Valid()
    ensures b.log == old(b.log) + Confirm(led)
    ensures b.leds == old(b.leds).(green := false, blue := false, yellow := false)
  {
    b.ClearLed(GreenLed);
    b.ClearLed(BlueLed);
    b.ClearLed(YellowLed);
    ghost var cleared := b.log;
    assert cleared == old(b.log) + [Off(GreenLed), Off(BlueLed), Off(YellowLed)];
    Flicker(b, led, 8);
    Associate(old(b.log), [Off(GreenLed), Off(BlueLed), Off(YellowLed)], Flashes(led, 8));
  }

  /** One pass of ChooseDifficulty's loop over the poll p. */
  method ScanButtons(b: Board, p: Pins, x0: int) returns (x: int)
    requires b.Valid()
    modifies b`leds, b`ticks, b`misses, b`log
    ensures b.Valid()
    ensures x == (if AnyDown(p) then Difficulty(p) else x0)
    ensures b.log == old(b.log) + Selection(p)
    ensures b.leds == if AnyDown(p) then old(b.leds).(green := false, blue := false, yellow := false) else old(b.leds)
  {
    ghost var before := b.leds;
    ghost var cleared := before.(green := false, blue := false, yellow := false);
    x := x0;
    if Down(p, Green) {
      Choose(b, GreenLed);
      x := EASY;
    }
    ghost var log1 := b.log;
    assert log1 == old(b.log) + (if Down(p, Green) then Confirm(GreenLed) else []);
    assert b.leds == if Down(p, Green) then cleared else before;
    if Down(p, Blue) {
      Choose(b, BlueLed);
      x := NORMAL;
    }
    ghost var log2 := b.log;
    assert log2 == log1 + (if Down(p, Blue) then Confirm(BlueLed) else []);
    assert b.leds == if Down(p, Green) || Down(p, Blue) then cleared else before;
    if Down(p, Yellow) {
      Choose(b, YellowLed);
      x := HARD;
    }
    ghost var log3 := b.log;
    assert log3 == log2 + (if Down(p, Yellow) then Confirm(YellowLed) else []);
    assert b.leds == if Down(p, Green) || Down(p, Blue) || Down(p, Yellow) then cleared else before;
    if Down(p, Red) {
      Choose(b, RedLed);
      x := EXTREME;
    }
    assert b.log == log3 + (if Down(p, Red) then Confirm(RedLed) else []);
    Concat4(old(b.log), if Down(p, Green) then Confirm(GreenLed) else [],
            if Down(p, Blue) then Confirm(BlueLed) else [],
            if Down(p, Yellow) then Confirm(YellowLed) else [],
            if Down(p, Red) then Confirm(RedLed) else []);
  }

  /** Switches the three prompt LEDs on. */
  method LightPrompt(b: Board)
    requires b.Valid()
    modifies b`leds, b`log
    ensures b.Valid()
    ensures b.log == old(b.log) + Prompt()
    ensures b.leds == old(b.leds).(green := true, blue := true, yellow := true)
  {
    b.SetLed(GreenLed);
    b.SetLed(BlueLed);
    b.SetLed(YellowLed);
  }

  /** ChooseDifficulty's wait loop: scans polls until one has a button
      down (x is then its difficulty) or the polls run out (x stays 0).
      `seen` counts the polls read. */
  method AwaitChoice(b: Board) returns (x: int, ghost seen: nat)
    requires b.Valid()
    modifies b`leds, b`ticks, b`misses, b`log, b`polls
    ensures b.Valid()
    ensures seen <= |old(b.polls)| && b.polls == old(b.polls)[seen..]
    ensures x == 0 ==> seen == |old(b.polls)| == FirstWith(old(b.polls), AnyDown)
    ensures x != 0 ==> 0 < seen && FirstWith(old(b.polls), AnyDown) == seen - 1
    ensures x == (if x == 0 then 0 else Difficulty(old(b.polls)[seen - 1]))
    ensures b.log == old(b.log) + (if x == 0 then [] else Selection(old(b.polls)[seen - 1]))
    ensures b.leds == if x == 0 then old(b.leds) else old(b.leds).(green := false, blue := false, yellow := false)
  {
    x := 0;
    seen := 0;
    while x < 1
      invariant b.Valid()
      invariant seen <= |old(b.polls)| && b.polls == old(b.polls)[seen..]
      invariant seen - (if x == 0 then 0 else 1) <= FirstWith(old(b.polls), AnyDown)
      invariant x != 0 ==> 0 < seen && FirstWith(old(b.polls), AnyDown) == seen - 1
      invariant x == (if x == 0 then 0 else Difficulty(old(b.polls)[seen - 1]))
      invariant b.log == old(b.log) + (if x == 0 then [] else Selection(old(b.polls)[seen - 1]))
      invariant b.leds == if x == 0 then old(b.leds) else old(b.leds).(green := false, blue := false, yellow := false)
      decreases |b.polls| + (if x < 1 then 1 else 0)
    {
      if b.polls == [] {
        return;
      }
      var p := b.Poll();
      FirstWithNext(old(b.polls), AnyDown, seen);
      seen := seen + 1;
      x := ScanButtons(b, p, x);
    }
  }

  /** Lights the three prompt LEDs and waits for a button; returns the
      difficulty chosen, or 0 when the polls ran out first. */
  method ChooseDifficulty(b: Board) returns (x: int)
    requires b.Valid()
    modifies b`leds, b`ticks, b`misses, b`log, b`polls
    ensures b.Valid()
    ensures b.log == old(b.log) + Prompt() + Chosen(old(b.polls))
    ensures var k := FirstWith(old(b.polls), AnyDown);
      if k < |old(b.polls)| then
        && x == Difficulty(old(b.polls)[k])
        && b.polls == old(b.polls)[k + 1..]
        && b.leds == old(b.leds).(green := false, blue := false, yellow := false)
      else
        && x == 0
        && b.polls == []
        && b.leds == old(b.leds).(green := true, blue := true, yellow := true)
  {
    LightPrompt(b);
    ghost var polls, lit, seen := b.polls, b.leds, 0;
    x, seen := AwaitChoice(b);
    assert Chosen(polls) == if x == 0 then [] else Selection(polls[seen - 1]);
    Associate(old(b.log), Prompt(), Chosen(polls));
    assert lit.(green := false, blue := false, yellow := false)
        == old(b.leds).(green := false, blue := false, yellow := false);
  }
}
