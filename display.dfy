/** What the game shows on the LEDs: the sequence of a round, and the
    signals for a correct answer, a win and a loss. */
module Display {
  import opened Colors
  import opened Hardware

  /** An LED lit for `lit` periods, then dark for `dark`. */
  function PulseEvents(led: Led, lit: int, dark: int): seq<Event> {
    [On(led), Delay(lit), Off(led), Delay(dark)]
  }

  /** A pulse lights its LED once. */
  lemma PulseLights(led: Led, lit: int, dark: int)
    ensures Lighted(PulseEvents(led, lit, dark)) == [led]
  {
    var e := PulseEvents(led, lit, dark);
    assert e[..3] == [On(led), Delay(lit), Off(led)];
    assert Lighted(e) == Lighted(e[..3]);
    assert e[..3][..2] == [On(led), Delay(lit)];
    assert Lighted(e[..3]) == Lighted(e[..3][..2]);
    assert e[..3][..2][..1] == [On(led)];
    assert Lighted(e[..3][..2]) == Lighted([On(led)]);
    assert [On(led)][..0] == [];
  }

  /** A pulse takes lit + 1 and dark + 1 timer periods. */
  lemma PulseDuration(led: Led, lit: nat, dark: nat)
    ensures Duration(PulseEvents(led, lit, dark)) == lit + 1 + dark + 1
  {
    var e := PulseEvents(led, lit, dark);
    assert e == [e[0], e[1], e[2]] + [e[3]];
    DurationSnoc([e[0], e[1], e[2]], e[3]);
    assert [e[0], e[1], e[2]] == [e[0], e[1]] + [e[2]];
    DurationSnoc([e[0], e[1]], e[2]);
    assert [e[0], e[1]] == [e[0]] + [e[1]];
    DurationSnoc([e[0]], e[1]);
    DurationSnoc([], e[0]);
  }

  /** What BlinkLeds shows for one entry of the sequence: the color's LED on
      for BLINK, then off for PAUSE. A code that names no color shows nothing. */
  function BlinkOf(code: int): seq<Event> {
    match ColorOf(code)
    case None => []
    case Some(c) => PulseEvents(LedOf(c), BLINK, PAUSE)
  }

  /** What BlinkLeds shows for a run of entries, first to last. */
  function Playback(codes: seq<int>): seq<Event> {
    if codes == [] then [] else Playback(codes[..|codes| - 1]) + BlinkOf(codes[|codes| - 1])
  }

  /** The number of entries BlinkLeds plays in a round: its do-while body runs
      at least once. */
  function Shown(round: int): (n: nat)
    ensures n >= 1 && (round >= 0 ==> n == round + 1)
  {
    if round < 0 then 1 else round + 1
  }

  /** The LEDs left lit after blinking a run of entries: each blinked LED ends off. */
  function AfterBlink(lamps: Lamps, codes: seq<int>): (r: Lamps)
    ensures r.status == lamps.status
    ensures forall c :: r.Get(LedOf(c)) == (lamps.Get(LedOf(c)) && Code(c) !in codes)
    ensures lamps.Dark() ==> r == lamps
  {
    if codes == [] then lamps
    else
      var rest := AfterBlink(lamps, codes[..|codes| - 1]);
      assert codes == codes[..|codes| - 1] + [codes[|codes| - 1]];
      match ColorOf(codes[|codes| - 1])
      case None => rest
      case Some(c) => rest.With(LedOf(c), false)
  }

  /** The LEDs a run of events switches on, in order. */
  function Lighted(events: seq<Event>): seq<Led> {
    if events == [] then []
    else Lighted(events[..|events| - 1]) + (if events[|events| - 1].On? then [events[|events| - 1].led] else [])
  }

  lemma {:induction false} LightedAppend(a: seq<Event>, b: seq<Event>)
    ensures Lighted(a + b) == Lighted(a) + Lighted(b)
  {
    if b == [] {
      assert a + b == a;
    } else {
      assert (a + b)[..|a + b| - 1] == a + b[..|b| - 1];
      LightedAppend(a, b[..|b| - 1]);
    }
  }

  /** Playing a run of valid codes lights one LED per entry, the entry's
      color, in the order of the run. */
  lemma {:induction false} PlaybackLights(codes: seq<int>)
    requires forall k :: 0 <= k < |codes| ==> ValidCode(codes[k])
    ensures |Lighted(Playback(codes))| == |codes|
    ensures forall k :: 0 <= k < |codes| ==> Lighted(Playback(codes))[k] == LedOf(ColorOf(codes[k]).value)
  {
    if codes != [] {
      var init := codes[..|codes| - 1];
      var c := ColorOf(codes[|codes| - 1]).value;
      PlaybackLights(init);
      LightedAppend(Playback(init), BlinkOf(codes[|codes| - 1]));
      PulseLights(LedOf(c), BLINK, PAUSE);
    }
  }

  /** Each entry of a run of valid codes takes BLINK + 1 and PAUSE + 1 timer periods. */
  lemma {:induction false} PlaybackDuration(codes: seq<int>)
    requires forall k :: 0 <= k < |codes| ==> ValidCode(codes[k])
    ensures Duration(Playback(codes)) == (BLINK + 1 + PAUSE + 1) * |codes|
  {
    if codes != [] {
      var init := codes[..|codes| - 1];
      var e := BlinkOf(codes[|codes| - 1]);
      PlaybackDuration(init);
      DurationAppend(Playback(init), e);
      PulseDuration(LedOf(ColorOf(codes[|codes| - 1]).value), BLINK, PAUSE);
    }
  }

  /** Switches an LED on or off, then waits `t`. */
  method Hold(b: Board, led: Led, on: bool, t: int)
    requires b.Valid()
    modifies b`leds, b`ticks, b`misses, b`log
    ensures b.Valid()
    ensures b.log == old(b.log) + [if on then On(led) else Off(led), Delay(t)]
    ensures b.leds == old(b.leds).With(led, on)
  {
    if on {
      b.SetLed(led);
    } else {
      b.ClearLed(led);
    }
    b.Wait(t);
  }

  /** Lights an LED, waits `lit`, switches it off and waits `dark`. */
  method Pulse(b: Board, led: Led, lit: int, dark: int)
    requires b.Valid()
    modifies b`leds, b`ticks, b`misses, b`log
    ensures b.Valid()
    ensures b.log == old(b.log) + PulseEvents(led, lit, dark)
    ensures b.leds == old(b.leds).With(led, false)
  {
    Hold(b, led, true, lit);
    Hold(b, led, false, dark);
    Associate(old(b.log), [On(led), Delay(lit)], [Off(led), Delay(dark)]);
  }

  /** One pass of BlinkLeds' switch: blinks the LED of one entry. */
  method Blink(b: Board, code: int)
    requires b.Valid()
    modifies b`leds, b`ticks, b`misses, b`log
    ensures b.Valid()
    ensures b.log == old(b.log) + BlinkOf(code)
    ensures b.leds == AfterBlink(old(b.leds), [code])
  {
    assert [code][..0] == [];
    match ColorOf(code)
    case None =>
    case Some(c) =>
      Pulse(b, LedOf(c), BLINK, PAUSE);
  }

  /** Blinks sequence[0], ..., sequence[round]; at least sequence[0]. */
  method BlinkLeds(b: Board, sequence: array<int>, round: int)
    requires b.Valid() && sequence.Length == 16 && round < 16
    modifies b`leds, b`ticks, b`misses, b`log
    ensures b.Valid()
    ensures b.log == old(b.log) + Playback(sequence[..Shown(round)])
    ensures b.leds == AfterBlink(old(b.leds), sequence[..Shown(round)])
  {
    var i := 0;
    while true
      invariant 0 <= i < Shown(round)
      invariant b.Valid()
      invariant b.log == old(b.log) + Playback(sequence[..i])
      invariant b.leds == AfterBlink(old(b.leds), sequence[..i])
      decreases Shown(round) - i
    {
      ghost var lit := b.leds;
      Blink(b, sequence[i]);
      assert sequence[..i + 1][..i] == sequence[..i];
      assert Playback(sequence[..i + 1]) == Playback(sequence[..i]) + BlinkOf(sequence[i]);
      Associate(old(b.log), Playback(sequence[..i]), BlinkOf(sequence[i]));
      assert b.leds == AfterBlink(lit, [sequence[i]]);
      i := i + 1;
      if !(i <= round) {
        break;
      }
    }
  }

  /** Toggles an LED n times, waiting CENTI_SEC after each toggle. */
  function Flashes(led: Led, n: nat): seq<Event> {
    Repeat([Toggle(led), Delay(CENTI_SEC)], n)
  }

  lemma {:induction false} FlashesDuration(led: Led, n: nat)
    ensures Duration(Flashes(led, n)) == (CENTI_SEC + 1) * n
  {
    if n > 0 {
      FlashesDuration(led, n - 1);
      DurationAppend(Flashes(led, n - 1), [Toggle(led), Delay(CENTI_SEC)]);
      DurationSnoc([Toggle(led)], Delay(CENTI_SEC));
      DurationSnoc([], Toggle(led));
    }
  }

  /** Whether n is odd, counted one step at a time. */
  function Odd(n: nat): bool {
    if n == 0 then false else !Odd(n - 1)
  }

  lemma {:induction false} OddMod(n: nat)
    ensures Odd(n) == (n % 2 == 1)
  {
    if n > 0 {
      OddMod(n - 1);
    }
  }

  /** One toggle of an LED followed by a CENTI_SEC wait. */
  method Flash(b: Board, led: Led)
    requires b.Valid()
    modifies b`leds, b`ticks, b`misses, b`log
    ensures b.Valid()
    ensures b.log == old(b.log) + [Toggle(led), Delay(CENTI_SEC)]
    ensures b.leds == old(b.leds).With(led, !old(b.leds).Get(led))
  {
    b.ToggleLed(led);
    b.Wait(CENTI_SEC);
    assert [Toggle(led), Delay(CENTI_SEC)] == [Toggle(led)] + [Delay(CENTI_SEC)];
  }

  /** Toggles an LED n times with a CENTI_SEC wait after each toggle: how a
      chosen difficulty is confirmed and a correct answer signalled. */
  method Flicker(b: Board, led: Led, n: nat)
    requires b.Valid()
    modifies b`leds, b`ticks, b`misses, b`log
    ensures b.Valid()
    ensures b.log == old(b.log) + Flashes(led, n)
    ensures b.leds == old(b.leds).With(led, old(b.leds).Get(led) != (n % 2 == 1))
  {
    for i := 0 to n
      invariant b.Valid()
      invariant b.log == old(b.log) + Flashes(led, i)
      invariant b.leds == old(b.leds).With(led, old(b.leds).Get(led) != Odd(i))
    {
      Flash(b, led);
      Associate(old(b.log), Flashes(led, i), [Toggle(led), Delay(CENTI_SEC)]);
    }
    OddMod(n);
  }

  /** Toggles the status LED eight times: it flashes four times and ends as it began. */
  method CorrectAnswer(b: Board)
    requires b.Valid()
    modifies b`leds, b`ticks, b`misses, b`log
    ensures b.Valid()
    ensures b.log == old(b.log) + Flashes(StatusLed, 8)
    ensures b.leds == old(b.leds)
  {
    Flicker(b, StatusLed, 8);
  }

  /** One pass of Win's loop: each game LED in turn on, then off, CENTI_SEC each. */
  function WinCycle(): seq<Event> {
    PulseEvents(RedLed, CENTI_SEC, CENTI_SEC) + PulseEvents(GreenLed, CENTI_SEC, CENTI_SEC)
    + PulseEvents(BlueLed, CENTI_SEC, CENTI_SEC) + PulseEvents(YellowLed, CENTI_SEC, CENTI_SEC)
  }

  /** Runs the four game LEDs three times; all four end off. */
  method Win(b: Board)
    requires b.Valid()
    modifies b`leds, b`ticks, b`misses, b`log
    ensures b.Valid()
    ensures b.log == old(b.log) + Repeat(WinCycle(), 3)
    ensures b.leds == old(b.leds).(red := false, green := false, blue := false, yellow := false)
  {
    for i := 0 to 3
      invariant b.Valid()
      invariant b.log == old(b.log) + Repeat(WinCycle(), i)
      invariant i > 0 ==> b.leds == old(b.leds).(red := false, green := false, blue := false, yellow := false)
      invariant i == 0 ==> b.leds == old(b.leds)
    {
      ghost var before := b.log;
      Pulse(b, RedLed, CENTI_SEC, CENTI_SEC);
      Pulse(b, GreenLed, CENTI_SEC, CENTI_SEC);
      Associate(before, PulseEvents(RedLed, CENTI_SEC, CENTI_SEC), PulseEvents(GreenLed, CENTI_SEC, CENTI_SEC));
      Pulse(b, BlueLed, CENTI_SEC, CENTI_SEC);
      Associate(before, PulseEvents(RedLed, CENTI_SEC, CENTI_SEC) + PulseEvents(GreenLed, CENTI_SEC, CENTI_SEC),
                PulseEvents(BlueLed, CENTI_SEC, CENTI_SEC));
      Pulse(b, YellowLed, CENTI_SEC, CENTI_SEC);
      Associate(before, PulseEvents(RedLed, CENTI_SEC, CENTI_SEC) + PulseEvents(GreenLed, CENTI_SEC, CENTI_SEC)
                + PulseEvents(BlueLed, CENTI_SEC, CENTI_SEC), PulseEvents(YellowLed, CENTI_SEC, CENTI_SEC));
      Associate(old(b.log), Repeat(WinCycle(), i), WinCycle());
    }
  }

  /** One pass of Loss's loop: the red LED on for HALF_SEC, off for QUART_SEC. */
  function LossCycle(): seq<Event> {
    PulseEvents(RedLed, HALF_SEC, QUART_SEC)
  }

  /** Blinks the red LED slowly three times, then waits ONE_SEC; red ends off. */
  method Loss(b: Board)
    requires b.Valid()
    modifies b`leds, b`ticks, b`misses, b`log
    ensures b.Valid()
    ensures b.log == old(b.log) + Repeat(LossCycle(), 3) + [Delay(ONE_SEC)]
    ensures b.leds == old(b.leds).With(RedLed, false)
  {
    for i := 0 to 3
      invariant b.Valid()
      invariant b.log == old(b.log) + Repeat(LossCycle(), i)
      invariant b.leds == if i == 0 then old(b.leds) else old(b.leds).With(RedLed, false)
    {
      Pulse(b, RedLed, HALF_SEC, QUART_SEC);
      Associate(old(b.log), Repeat(LossCycle(), i), LossCycle());
    }
    b.Wait(ONE_SEC);
  }

  /** One pass of Win's loop lights red, green, blue and yellow in turn. */
  lemma WinCycleShows()
    ensures Lighted(WinCycle()) == [RedLed, GreenLed, BlueLed, YellowLed]
    ensures Duration(WinCycle()) == 4 * (CENTI_SEC + 1 + CENTI_SEC + 1)
  {
    var r, g := PulseEvents(RedLed, CENTI_SEC, CENTI_SEC), PulseEvents(GreenLed, CENTI_SEC, CENTI_SEC);
    var bl, y := PulseEvents(BlueLed, CENTI_SEC, CENTI_SEC), PulseEvents(YellowLed, CENTI_SEC, CENTI_SEC);
    PulseLights(RedLed, CENTI_SEC, CENTI_SEC);
    PulseLights(GreenLed, CENTI_SEC, CENTI_SEC);
    PulseLights(BlueLed, CENTI_SEC, CENTI_SEC);
    PulseLights(YellowLed, CENTI_SEC, CENTI_SEC);
    PulseDuration(RedLed, CENTI_SEC, CENTI_SEC);
    PulseDuration(GreenLed, CENTI_SEC, CENTI_SEC);
    PulseDuration(BlueLed, CENTI_SEC, CENTI_SEC);
    PulseDuration(YellowLed, CENTI_SEC, CENTI_SEC);
    LightedAppend(r, g);
    LightedAppend(r + g, bl);
    LightedAppend(r + g + bl, y);
    DurationAppend(r, g);
    DurationAppend(r + g, bl);
    DurationAppend(r + g + bl, y);
  }

  /** A run repeated `n` times lights its LEDs `n` times over. */
  lemma {:induction false} RepeatLighted(events: seq<Event>, n: nat)
    ensures Lighted(Repeat(events, n)) == Repeat(Lighted(events), n)
  {
    if n > 0 {
      RepeatLighted(events, n - 1);
      LightedAppend(Repeat(events, n - 1), events);
    }
  }

  /** Win runs the four game LEDs in order three times over. */
  lemma WinShows()
    ensures Lighted(Repeat(WinCycle(), 3)) == Repeat([RedLed, GreenLed, BlueLed, YellowLed], 3)
    ensures Duration(Repeat(WinCycle(), 3)) == 3 * 4 * (CENTI_SEC + 1 + CENTI_SEC + 1)
  {
    WinCycleShows();
    RepeatLighted(WinCycle(), 3);
    RepeatDuration(WinCycle(), 3);
  }

  /** Loss lights the red LED three times and takes three slow blinks and a
      ONE_SEC wait. */
  lemma LossShows()
    ensures Lighted(Repeat(LossCycle(), 3) + [Delay(ONE_SEC)]) == Repeat([RedLed], 3)
    ensures Duration(Repeat(LossCycle(), 3) + [Delay(ONE_SEC)])
         == 3 * (HALF_SEC + 1 + QUART_SEC + 1) + ONE_SEC + 1
  {
    var l := LossCycle();
    PulseLights(RedLed, HALF_SEC, QUART_SEC);
    PulseDuration(RedLed, HALF_SEC, QUART_SEC);
    RepeatLighted(l, 3);
    RepeatDuration(l, 3);
    LightedAppend(Repeat(l, 3), [Delay(ONE_SEC)]);
    DurationSnoc(Repeat(l, 3), Delay(ONE_SEC));
    assert [Delay(ONE_SEC)][..0] == [];
  }
}
