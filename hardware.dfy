/** The board the game runs on: the LED output ports, the button input
    ports, and timer A0, whose overflow flag TAIFG is the only clock. */
module Hardware {
  import opened Colors

  // Wait lengths, in 10 ms periods of timer A0
  const TEN_MS := 1
  const CENTI_SEC := 10
  const QUART_SEC := 25
  const HALF_SEC := 50
  const ONE_SEC := 100
  const BLINK := 20
  const PAUSE := 30

  // Button bits, active-low
  const RED_BTN: bv8 := 0x08       // P2.3
  const GREEN_BTN: bv8 := 0x02     // P3.1
  const BLUE_BTN: bv8 := 0x01      // P3.0
  const YELLOW_BTN: bv8 := 0x08    // P1.3

  datatype Led = RedLed | GreenLed | BlueLed | YellowLed | StatusLed

  /** The LED in front of a color's button. */
  function LedOf(c: Color): (led: Led)
    ensures led != StatusLed
  {
    match c
    case Red => RedLed
    case Green => GreenLed
    case Blue => BlueLed
    case Yellow => YellowLed
  }

  /** Which of the five LEDs are lit: the LED bits of the output registers,
      RED_LED (P3OUT bit 6), GREEN_LED (P3OUT bit 3), BLUE_LED (P2OUT bit 6),
      YELLOW_LED (P2OUT bit 7) and P9_GREEN_LED (P9OUT bit 7), the status LED.
      RED_LED and BLUE_LED are the same mask, 0x40, on two different ports. */
  datatype Lamps = Lamps(red: bool, green: bool, blue: bool, yellow: bool, status: bool) {
    function Get(led: Led): bool {
      match led
      case RedLed => red
      case GreenLed => green
      case BlueLed => blue
      case YellowLed => yellow
      case StatusLed => status
    }

    function With(led: Led, on: bool): (r: Lamps)
      ensures r.Get(led) == on
      ensures forall l :: l != led ==> r.Get(l) == Get(l)
    {
      Lamps(if led == RedLed then on else red, if led == GreenLed then on else green,
            if led == BlueLed then on else blue, if led == YellowLed then on else yellow,
            if led == StatusLed then on else status)
    }

    /** None of the four game LEDs is lit. */
    predicate Dark() {
      !red && !green && !blue && !yellow
    }
  }

  /** One poll of the buttons: the level of each button's input bit, true
      for high. The pull-up resistors hold a released button high. */
  datatype Pins = Pins(red: bool, green: bool, blue: bool, yellow: bool)

  /** The button levels in the values read from P1IN, P2IN and P3IN. */
  function ReadPins(p1in: bv8, p2in: bv8, p3in: bv8): Pins {
    Pins(p2in & RED_BTN != 0, p3in & GREEN_BTN != 0, p3in & BLUE_BTN != 0, p1in & YELLOW_BTN != 0)
  }

  /** The firmware's test `(PxIN & BTN) == 0` is Down on the decoded levels. */
  lemma ReadPinsDown(p1in: bv8, p2in: bv8, p3in: bv8)
    ensures Down(ReadPins(p1in, p2in, p3in), Red) <==> p2in & RED_BTN == 0
    ensures Down(ReadPins(p1in, p2in, p3in), Green) <==> p3in & GREEN_BTN == 0
    ensures Down(ReadPins(p1in, p2in, p3in), Blue) <==> p3in & BLUE_BTN == 0
    ensures Down(ReadPins(p1in, p2in, p3in), Yellow) <==> p1in & YELLOW_BTN == 0
  {
  }

  /** A button is down when its input bit reads 0. */
  predicate Down(p: Pins, c: Color) {
    match c
    case Red => !p.red
    case Green => !p.green
    case Blue => !p.blue
    case Yellow => !p.yellow
  }

  /** The buttons down in a poll, in the order the firmware tests them. */
  function Pressed(p: Pins): (cs: seq<Color>)
    ensures forall c :: c in cs <==> Down(p, c)
    ensures |cs| <= 4
  {
    (if Down(p, Red) then [Red] else []) + (if Down(p, Green) then [Green] else [])
    + (if Down(p, Blue) then [Blue] else []) + (if Down(p, Yellow) then [Yellow] else [])
  }

  /** Pressed lists each button that is down once. */
  lemma PressedCount(p: Pins)
    ensures |Pressed(p)| == (if Down(p, Red) then 1 else 0) + (if Down(p, Green) then 1 else 0)
                            + (if Down(p, Blue) then 1 else 0) + (if Down(p, Yellow) then 1 else 0)
  {
  }

  predicate AnyDown(p: Pins) {
    Down(p, Red) || Down(p, Green) || Down(p, Blue) || Down(p, Yellow)
  }

  /** At most one button is down in the poll. */
  predicate OneButton(p: Pins) {
    |Pressed(p)| <= 1
  }

  /** Every poll of a trace has at most one button down. */
  ghost predicate OneButtonTrace(polls: seq<Pins>) {
    forall k :: 0 <= k < |polls| ==> OneButton(polls[k])
  }

  /** A trace with one button per poll keeps that property from any point on. */
  lemma OneButtonSuffix(polls: seq<Pins>, n: nat)
    requires OneButtonTrace(polls) && n <= |polls|
    ensures OneButtonTrace(polls[n..])
  {
    forall k | 0 <= k < |polls| - n
      ensures OneButton(polls[n..][k])
    {
      assert polls[n..][k] == polls[n + k];
    }
  }

  /** What the firmware does that can be seen: LED writes and finished Waits. */
  datatype Event = On(led: Led) | Off(led: Led) | Toggle(led: Led) | Delay(t: int)

  /** The timer overflows an event takes: Wait(t) observes t + 1 of them. */
  function Cost(e: Event): nat {
    if e.Delay? && e.t >= 0 then e.t + 1 else 0
  }

  /** The timer overflows a run of events takes. */
  function Duration(events: seq<Event>): nat {
    if events == [] then 0 else Duration(events[..|events| - 1]) + Cost(events[|events| - 1])
  }

  lemma DurationSnoc(a: seq<Event>, e: Event)
    ensures Duration(a + [e]) == Duration(a) + Cost(e)
  {
    assert (a + [e])[..|a|] == a;
  }

  lemma {:induction false} DurationAppend(a: seq<Event>, b: seq<Event>)
    ensures Duration(a + b) == Duration(a) + Duration(b)
  {
    if b == [] {
      assert a + b == a;
    } else {
      var c := b[..|b| - 1];
      assert a + b == (a + c) + [b[|b| - 1]];
      DurationSnoc(a + c, b[|b| - 1]);
      DurationAppend(a, c);
    }
  }

  lemma Associate<T>(a: seq<T>, b: seq<T>, c: seq<T>)
    ensures a + b + c == a + (b + c)
  {
  }

  lemma DropOne<T>(s: seq<T>, n: nat)
    requires n < |s|
    ensures s[n..][1..] == s[n + 1..]
  {
  }

  /** `n` copies of a run. */
  function Repeat<T>(xs: seq<T>, n: nat): seq<T> {
    if n == 0 then [] else Repeat(xs, n - 1) + xs
  }

  /** A run repeated `n` times takes `n` times as long. */
  lemma {:induction false} RepeatDuration(events: seq<Event>, n: nat)
    ensures Duration(Repeat(events, n)) == n * Duration(events)
  {
    if n > 0 {
      var d, rest := Duration(events), Repeat(events, n - 1);
      RepeatDuration(events, n - 1);
      DurationAppend(rest, events);
      assert Duration(Repeat(events, n)) == Duration(rest) + d;
      MulSucc(n - 1, d);
    }
  }

  /** One more copy adds one more `d`. */
  lemma MulSucc(m: nat, d: nat)
    ensures (m + 1) * d == m * d + d
  {
  }

  /** The input and output registers the game uses, timer A0, and the
      button polls still to come. */
  class Board {
    /** The LED bits of P2OUT, P3OUT and P9OUT. */
    var leds: Lamps

    /** Timer A0 overflows every 10 ms and sets TAIFG. Before overflow k is
        seen, gap(k) readings of TAIFG find it clear. */
    const gap: nat -> nat
    /** Overflows seen and cleared so far. */
    var ticks: nat
    /** Readings of TAIFG that found it clear since the last overflow. */
    var misses: nat

    /** The button inputs, one reading per pass of a polling loop. */
    var polls: seq<Pins>

    /** Everything the board has shown so far. */
    ghost var log: seq<Event>

    /** The overflows seen are exactly those the finished Waits took. */
    ghost predicate Valid()
      reads this
    {
      ticks == Duration(log)
    }

    /** A board after bring-up. Bring-up writes no LED bit, so `lit` is
        whatever the output latches hold at power-up. */
    constructor (lit: Lamps, gap: nat -> nat, polls: seq<Pins>)
      ensures Valid()
      ensures this.gap == gap && this.polls == polls && log == []
      ensures leds == lit
    {
      leds := lit;
      this.gap := gap;
      ticks, misses := 0, 0;
      this.polls := polls;
      log := [];
    }

    /** Busy-waits until t + 1 overflows of timer A0 have been seen, clearing
        TAIFG after each; readings that find it clear do not count. */
    method Wait(t: int)
      requires Valid()
      modifies this`ticks, this`misses, this`log
      ensures Valid()
      ensures ticks == old(ticks) + (if t < 0 then 0 else t + 1)
      ensures t >= 0 ==> misses == 0
      ensures t < 0 ==> misses == old(misses)
      ensures log == old(log) + [Delay(t)]
    {
      var i := 0;
      while i <= t
        invariant if t < 0 then i == 0 else 0 <= i <= t + 1
        invariant ticks == old(ticks) + i
        invariant t >= 0 && i == t + 1 ==> misses == 0
        invariant t < 0 ==> misses == old(misses)
        invariant log == old(log)
        decreases t + 1 - i, gap(ticks) - misses
      {
        var overflowed := misses >= gap(ticks);  // TA0CTL & TAIFG
        if overflowed {
          i := i + 1;
          ticks, misses := ticks + 1, 0;         // TA0CTL &= ~TAIFG
        } else {
          misses := misses + 1;
        }
      }
      DurationSnoc(log, Delay(t));
      log := log + [Delay(t)];
    }

    /** Drives an LED's output bit high: `P |= LED`. */
    method SetLed(led: Led)
      requires Valid()
      modifies this`leds, this`log
      ensures Valid()
      ensures leds == old(leds).With(led, true)
      ensures log == old(log) + [On(led)]
    {
      leds := leds.With(led, true);
      DurationSnoc(log, On(led));
      log := log + [On(led)];
    }

    /** Drives an LED's output bit low: `P &= ~LED`. */
    method ClearLed(led: Led)
      requires Valid()
      modifies this`leds, this`log
      ensures Valid()
      ensures leds == old(leds).With(led, false)
      ensures log == old(log) + [Off(led)]
    {
      leds := leds.With(led, false);
      DurationSnoc(log, Off(led));
      log := log + [Off(led)];
    }

    /** Flips an LED's output bit: `P = P ^ LED`. */
    method ToggleLed(led: Led)
      requires Valid()
      modifies this`leds, this`log
      ensures Valid()
      ensures leds == old(leds).With(led, !old(leds).Get(led))
      ensures log == old(log) + [Toggle(led)]
    {
      leds := leds.With(led, !leds.Get(led));
      DurationSnoc(log, Toggle(led));
      log := log + [Toggle(led)];
    }

    /** Reads the button inputs once. */
    method Poll() returns (p: Pins)
      requires polls != []
      modifies this`polls
      ensures p == old(polls)[0] && polls == old(polls)[1..]
    {
      p := polls[0];
      polls := polls[1..];
    }
  }
}
