/** The autoscaler sample plugin: a decimal counter kept as text in key-value
    storage, and a tick on every third event. */
module Autoscaler {
  import opened Decimal
  import opened Wrappers

  const COUNTER := "cpu_high_count"
  const THRESHOLD := 3
  const READ_BUFFER := 32
  /** Ten to the twentieth: numerals below it have at most twenty digits. */
  const ITOA_LIMIT := 100_000_000_000_000_000_000
  const NOT_FOUND := -6
  const TOO_SMALL := -7
  const DENIED := -2

  /** What a tick carries: the count and the event that caused it. */
  datatype Body = Body(count: int, event: string)

  /** Which of the host calls of one event are refused. */
  datatype Faults = Faults(get: bool, put: bool, emit: bool, reset: bool)

  /** valid: whether the payload is JSON, without which the tick is sent empty. */
  datatype Event = Event(payload: string, valid: bool, faults: Faults)

  datatype State = State(store: map<string, string>, ticks: seq<Option<Body>>)

  const EMPTY := State(map[], [])

  // ----- The decimal scan --------------------------------------------------------

  /** x in an int type holding -half up to half - 1: two's complement wrap-around. */
  function Wrap(half: int, x: int): (r: int)
    requires half > 0
    ensures -half <= r < half
    decreases if x >= half then x else if x < -half then -x else 0
  {
    if x >= half then Wrap(half, x - 2 * half)
    else if x < -half then Wrap(half, x + 2 * half)
    else x
  }

  lemma WrapFits(half: int, x: int)
    requires half > 0 && -half <= x < half
    ensures Wrap(half, x) == x
  {
  }

  /** The width of int: at least two digits, and small enough for itoa's buffer. */
  predicate Width(half: int) {
    100 <= half <= ITOA_LIMIT
  }

  /** The scan: leading digits, wrapping, stopping at the first other character. */
  function Scan(half: int, s: string, count: int): int
    requires half > 0
  {
    if s == "" || !IsDigit(s[0]) then count
    else Scan(half, s[1..], Wrap(half, count * 10 + DigitValue(s[0])))
  }

  lemma {:induction false} ScanOverDigits(half: int, n: nat, rest: string)
    requires Width(half) && n < half
    ensures Scan(half, Digits(n) + rest, 0) == Scan(half, rest, n)
    decreases n
  {
    if n < 10 {
      assert (Digits(n) + rest)[1..] == rest;
      WrapFits(half, n);
    } else {
      var last := [DigitChar(n % 10)];
      assert Digits(n) + rest == Digits(n / 10) + (last + rest);
      ScanOverDigits(half, n / 10, last + rest);
      assert (last + rest)[1..] == rest;
      WrapFits(half, n);
    }
  }

  /** The scan inverts itoa on every int that is not negative, whatever follows. */
  lemma ScanInvertsDigits(half: int, n: nat, garbage: string)
    requires Width(half) && n < half
    requires garbage == "" || !IsDigit(garbage[0])
    ensures Scan(half, Digits(n) + garbage, 0) == n
  {
    ScanOverDigits(half, n, garbage);
  }

  /** What itoa returns: nothing at all for a negative int. */
  function Rendered(n: int): string {
    if n < 0 then "" else Digits(n)
  }

  /** The digits still to be written. */
  function Front(left: nat): string {
    if left == 0 then "" else Digits(left)
  }

  lemma LastDigit(left: nat, tail: string)
    requires left > 0
    ensures Front(left) + tail == Front(left / 10) + ([DigitChar(left % 10)] + tail)
  {
  }

  lemma FitsBuffer(n: nat)
    requires n < ITOA_LIMIT
    ensures |Digits(n)| <= 20
  {
    assert Pow10(5) == 100_000;
    assert Pow10(10) == 10_000_000_000;
    assert Pow10(15) == 1_000_000_000_000_000;
    assert Pow10(20) == ITOA_LIMIT;
    LengthOfDigits(n, 20);
  }

  /** itoa: digits written backwards into a fixed buffer of 20. */
  method Itoa(n: int) returns (s: string)
    requires n < ITOA_LIMIT
    ensures s == Rendered(n)
  {
    if n == 0 { return "0"; }
    if n > 0 { FitsBuffer(n); }
    var buf := new char[20];
    var i, left := 20, n;
    while left > 0
      invariant 0 <= i <= 20
      invariant n > 0 ==> left >= 0 && Digits(n) == Front(left) + buf[i..]
      invariant n < 0 ==> i == 20
      decreases left
    {
      ghost var tail := buf[i..];
      i := i - 1;
      buf[i] := DigitChar(left % 10);
      assert buf[i..] == [DigitChar(left % 10)] + tail;
      LastDigit(left, tail);
      left := left / 10;
    }
    s := buf[i..];
  }

  /** The loop over buf[:n]. */
  method ParseCount(half: int, buf: array<char>, n: nat) returns (count: int)
    requires half > 0 && n <= buf.Length
    ensures count == Scan(half, buf[..n], 0)
  {
    count := 0;
    ghost var s := buf[..n];
    for i := 0 to n
      invariant Scan(half, s, 0) == Scan(half, s[i..], count)
    {
      var c := buf[i];
      assert s[i..][0] == c && s[i..][1..] == s[i + 1..];
      if c < '0' || c > '9' { break; }
      count := Wrap(half, count * 10 + DigitValue(c));
    }
  }

  // ----- One event ---------------------------------------------------------------

  /** The count read back: zero unless the host hands over a text that fits. */
  function CountRead(half: int, store: map<string, string>, refused: bool): int
    requires half > 0
  {
    if refused || COUNTER !in store || |store[COUNTER]| > READ_BUFFER then 0
    else Scan(half, store[COUNTER], 0)
  }

  function Put(store: map<string, string>, refused: bool, text: string): map<string, string> {
    if refused then store else store[COUNTER := text]
  }

  function Next(half: int, s: State, e: Event): State
    requires half > 0
  {
    Counted(s, e, Wrap(half, CountRead(half, s.store, e.faults.get) + 1))
  }

  /** The rest of the event once the new count is known. */
  function Counted(s: State, e: Event, count: int): State {
    var store := Put(s.store, e.faults.put, Rendered(count));
    if count < THRESHOLD then State(store, s.ticks)
    else
      var body := if e.valid then Some(Body(count, e.payload)) else None;
      State(Put(store, e.faults.reset, "0"), if e.faults.emit then s.ticks else s.ticks + [body])
  }

  class Plugin {
    const half: int
    var store: map<string, string>
    var ticks: seq<Option<Body>>

    constructor (half: int)
      ensures this.half == half && View() == EMPTY
    {
      this.half := half;
      store, ticks := map[], [];
    }

    function View(): State
      reads this
    {
      State(store, ticks)
    }

    /** The host's get: the length written into buf, or a negative status. */
    method KvGet(key: string, buf: array<char>, refused: bool) returns (n: int)
      modifies buf
      ensures n <= buf.Length
      ensures n >= 0 <==> !refused && key in store && |store[key]| <= buf.Length
      ensures n >= 0 ==> buf[..n] == store[key]
    {
      if refused { return DENIED; }
      if key !in store { return NOT_FOUND; }
      var value := store[key];
      if |value| > buf.Length { return TOO_SMALL; }
      for i := 0 to |value|
        invariant forall k :: 0 <= k < i ==> buf[k] == value[k]
      {
        buf[i] := value[i];
      }
      n := |value|;
    }

    method KvSet(key: string, value: string, refused: bool)
      modifies this`store
      ensures store == if refused then old(store) else old(store)[key := value]
    {
      if !refused { store := store[key := value]; }
    }

    method EventsEmit(body: Option<Body>, refused: bool)
      modifies this`ticks
      ensures ticks == if refused then old(ticks) else old(ticks) + [body]
    {
      if !refused { ticks := ticks + [body]; }
    }

    method OnEvent(e: Event)
      requires Width(half)
      modifies this
      ensures View() == Next(half, old(View()), e)
    {
      var buf := new char[READ_BUFFER];
      var n := KvGet(COUNTER, buf, e.faults.get);
      var count := 0;
      if n > 0 {
        count := ParseCount(half, buf, n);
      }
      assert count == CountRead(half, store, e.faults.get);
      count := Wrap(half, count + 1);
      var countBytes := Itoa(count);
      KvSet(COUNTER, countBytes, e.faults.put);
      if count >= THRESHOLD {
        var body := if e.valid then Some(Body(count, e.payload)) else None;
        EventsEmit(body, e.faults.emit);
        KvSet(COUNTER, "0", e.faults.reset);
      }
    }
  }

  /** One event: the count read back is the stored numeral if it is handed over and has at
      most 32 characters, else zero; one more is stored, unless that is refused; from three
      on a tick is sent, unless that is refused, and zero stored, unless that is. */
  lemma NextIsExact(half: int, s: State, e: Event) returns (count: int)
    requires half > 0
    ensures var known := !e.faults.get && COUNTER in s.store && |s.store[COUNTER]| <= 32;
            count == Wrap(half, (if known then Scan(half, s.store[COUNTER], 0) else 0) + 1)
    ensures var s', kept := Next(half, s, e), (if COUNTER in s.store then Some(s.store[COUNTER]) else None);
            && (forall key :: key != COUNTER ==>
                  (key in s'.store <==> key in s.store) && (key in s.store ==> s'.store[key] == s.store[key]))
            && (if COUNTER in s'.store then Some(s'.store[COUNTER]) else None)
               == (if count >= 3 && !e.faults.reset then Some("0")
                   else if e.faults.put then kept
                   else if count < 0 then Some("") else Some(Digits(count)))
            && s'.ticks == s.ticks + if count < 3 || e.faults.emit then []
                                     else if e.valid then [Some(Body(count, e.payload))] else [None]
  {
    count := Wrap(half, CountRead(half, s.store, e.faults.get) + 1);
  }

  // ----- Runs ----------------------------------------------------------------------

  function Run(half: int, s: State, events: seq<Event>): State
    requires half > 0
  {
    if events == [] then s else Next(half, Run(half, s, events[..|events| - 1]), events[|events| - 1])
  }

  /** The store holds the numeral of c, or nothing yet and c is zero. */
  predicate Holds(store: map<string, string>, c: nat) {
    if COUNTER in store then store[COUNTER] == Digits(c) else c == 0
  }

  lemma ReadsBack(half: int, store: map<string, string>, c: nat, refused: bool)
    requires Width(half) && Holds(store, c) && c <= THRESHOLD
    ensures CountRead(half, store, refused) == if refused then 0 else c
  {
    ScanInvertsDigits(half, c, "");
    assert Digits(c) + "" == Digits(c);
  }

  /** The tick that the event e causes when it brings the count to three. */
  function Tick(e: Event): Option<Body> {
    if e.valid then Some(Body(THRESHOLD, e.payload)) else None
  }

  /** From an empty store and with no host call refused, n events emit n div 3 ticks,
      one for each third event, and the stored text is the numeral of n mod 3. */
  lemma {:induction false} EveryThirdEventTicks(half: int, events: seq<Event>)
    requires Width(half)
    requires forall k :: 0 <= k < |events| ==> events[k].faults == Faults(false, false, false, false)
    ensures var s := Run(half, EMPTY, events);
            && |s.ticks| == |events| / 3
            && (forall k :: 0 <= k < |s.ticks| ==> s.ticks[k] == Tick(events[3 * k + 2]))
            && Holds(s.store, |events| % 3)
  {
    if events != [] {
      var front, e := events[..|events| - 1], events[|events| - 1];
      EveryThirdEventTicks(half, front);
      var s := Run(half, EMPTY, front);
      ReadsBack(half, s.store, |front| % 3, false);
      WrapFits(half, |front| % 3 + 1);
      assert Digits(0) == "0";
      assert |events| == |front| + 1;
    }
  }

  /** Refused reads, writes and emits lose events, but as long as no reset is refused
      every tick counts exactly three and the store never holds more than two. */
  lemma {:induction false} TicksCountThree(half: int, events: seq<Event>) returns (c: nat)
    requires Width(half)
    requires forall k :: 0 <= k < |events| ==> !events[k].faults.reset
    ensures var s := Run(half, EMPTY, events);
            && c < THRESHOLD && Holds(s.store, c)
            && (forall k :: 0 <= k < |s.ticks| ==>
                  s.ticks[k] == None || s.ticks[k].value.count == THRESHOLD)
            && |s.ticks| * 3 + c <= |events|
  {
    c := 0;
    if events != [] {
      var front, e := events[..|events| - 1], events[|events| - 1];
      c := TicksCountThree(half, front);
      var s := Run(half, EMPTY, front);
      ReadsBack(half, s.store, c, e.faults.get);
      var count := (if e.faults.get then 0 else c) + 1;
      WrapFits(half, count);
      assert Digits(0) == "0";
      if count == THRESHOLD { c := 0; } else if !e.faults.put { c := count; }
    }
  }

  /** Nothing is refused but resets, and every payload is JSON. */
  predicate OnlyResetsRefused(events: seq<Event>) {
    forall k :: 0 <= k < |events| ==>
      events[k].valid && !events[k].faults.get && !events[k].faults.put && !events[k].faults.emit
  }

  /** The reset behind the third event of some round was refused, with another event to
      come among the first n. */
  predicate Stuck(events: seq<Event>, n: nat)
    requires n <= |events|
  {
    exists i :: 0 <= i < n - 1 && i % 3 == 2 && events[i].faults.reset
  }

  predicate CountsThree(t: Option<Body>) {
    t.Some? && t.value.count == THRESHOLD
  }

  /** Up to the first refused reset everything is in its round. */
  lemma {:induction false} RegularUntilStuck(half: int, events: seq<Event>)
    requires Width(half) && OnlyResetsRefused(events) && !Stuck(events, |events|)
    ensures InRound(Run(half, EMPTY, events), events)
  {
    if events != [] {
      var front, e := events[..|events| - 1], events[|events| - 1];
      FrontNotStuck(events);
      RegularUntilStuck(half, front);
      StaysInRound(half, Run(half, EMPTY, front), front, e);
      assert events == front + [e];
    }
  }

  /** Every tick so far counts three, and the store holds the count of the round. */
  ghost predicate InRound(s: State, events: seq<Event>) {
    && (forall k :: 0 <= k < |s.ticks| ==> CountsThree(s.ticks[k]))
    && Holds(s.store, Count(events))
  }

  function Count(events: seq<Event>): nat {
    var n := |events|;
    if n > 0 && n % 3 == 0 && events[n - 1].faults.reset then THRESHOLD else n % 3
  }

  lemma StaysInRound(half: int, s: State, front: seq<Event>, e: Event)
    requires Width(half) && InRound(s, front) && OnlyResetsRefused([e]) && Count(front) < THRESHOLD
    ensures InRound(Next(half, s, e), front + [e])
  {
    RegularStep(half, s, e, Count(front));
    assert [e][0] == e;
  }

  lemma FrontNotStuck(events: seq<Event>)
    requires events != [] && !Stuck(events, |events|)
    ensures var front := events[..|events| - 1];
            !Stuck(front, |front|) && Count(front) < THRESHOLD
  {
    var front := events[..|events| - 1];
    assert forall i :: 0 <= i < |front| ==> front[i] == events[i];
  }

  lemma RegularStep(half: int, s: State, e: Event, c: nat)
    requires Width(half) && Holds(s.store, c) && c < THRESHOLD && OnlyResetsRefused([e])
    ensures var t := Next(half, s, e);
            if c + 1 < THRESHOLD then t.ticks == s.ticks && Holds(t.store, c + 1)
            else t.ticks == s.ticks + [Tick(e)] && Holds(t.store, if e.faults.reset then THRESHOLD else 0)
  {
    assert [e][0] == e;
    ReadsBack(half, s.store, c, false);
    WrapFits(half, c + 1);
    assert Digits(0) == "0";
  }

  lemma {:induction false} TicksStay(half: int, events: seq<Event>, n: nat)
    requires half > 0 && n <= |events|
    ensures Run(half, EMPTY, events[..n]).ticks <= Run(half, EMPTY, events).ticks
  {
    if n == |events| {
      assert events[..n] == events;
    } else {
      var front := events[..|events| - 1];
      TicksStay(half, front, n);
      assert front[..n] == events[..n];
    }
  }

  lemma StuckNow(events: seq<Event>, i: nat)
    requires OnlyResetsRefused(events) && i < |events| && i % 3 == 2 && events[i].faults.reset
    requires forall j :: 0 <= j < i && j % 3 == 2 ==> !events[j].faults.reset
    ensures var front := events[..i + 1];
            OnlyResetsRefused(front) && !Stuck(front, |front|) && Count(front) == THRESHOLD
  {
  }

  lemma HoldsThreeWhenStuck(half: int, events: seq<Event>, i: nat)
    requires Width(half) && OnlyResetsRefused(events) && i < |events| && i % 3 == 2 && events[i].faults.reset
    requires forall j :: 0 <= j < i && j % 3 == 2 ==> !events[j].faults.reset
    ensures Holds(Run(half, EMPTY, events[..i + 1]).store, THRESHOLD)
  {
    StuckNow(events, i);
    RegularUntilStuck(half, events[..i + 1]);
  }

  lemma NextCountsFour(half: int, s: State, e: Event)
    requires Width(half) && Holds(s.store, THRESHOLD) && OnlyResetsRefused([e])
    ensures Next(half, s, e).ticks == s.ticks + [Some(Body(4, e.payload))]
  {
    assert [e][0] == e;
    ReadsBack(half, s.store, THRESHOLD, false);
    WrapFits(half, 4);
  }

  /** The event behind the first refused reset of a third event counts four. */
  lemma FourBehindStuck(half: int, events: seq<Event>, i: nat)
    requires Width(half) && OnlyResetsRefused(events)
    requires i + 1 < |events| && i % 3 == 2 && events[i].faults.reset
    requires forall j :: 0 <= j < i && j % 3 == 2 ==> !events[j].faults.reset
    ensures var ticks := Run(half, EMPTY, events).ticks;
            exists k :: 0 <= k < |ticks| && ticks[k] == Some(Body(4, events[i + 1].payload))
  {
    var front, more := events[..i + 1], events[..i + 2];
    HoldsThreeWhenStuck(half, events, i);
    var s := Run(half, EMPTY, front);
    assert more[..|more| - 1] == front;
    NextCountsFour(half, s, events[i + 1]);
    var t := Run(half, EMPTY, more).ticks;
    TicksStay(half, events, i + 2);
    assert Run(half, EMPTY, events).ticks[|s.ticks|] == t[|s.ticks|];
  }

  lemma {:induction false} LeastStuck(events: seq<Event>, n: nat) returns (i: nat)
    requires n <= |events| && Stuck(events, n)
    ensures i < n - 1 && i % 3 == 2 && events[i].faults.reset
    ensures forall j :: 0 <= j < i && j % 3 == 2 ==> !events[j].faults.reset
  {
    if Stuck(events, n - 1) {
      i := LeastStuck(events, n - 1);
    } else {
      i := n - 2;
    }
  }

  /** Where nothing but resets is refused, some tick counts other than three if and only
      if the reset behind a third event was refused and another event came; the first
      such event counts four. */
  lemma RefusedResetOvercounts(half: int, events: seq<Event>)
    requires Width(half) && OnlyResetsRefused(events)
    ensures var ticks := Run(half, EMPTY, events).ticks;
            && ((exists k :: 0 <= k < |ticks| && !CountsThree(ticks[k]))
                <==> exists i :: 0 <= i < |events| - 1 && i % 3 == 2 && events[i].faults.reset)
            && ((exists k :: 0 <= k < |ticks| && !CountsThree(ticks[k]))
                <==> exists k :: 0 <= k < |ticks| && ticks[k].Some? && ticks[k].value.count == 4)
  {
    var ticks := Run(half, EMPTY, events).ticks;
    if Stuck(events, |events|) {
      var i := LeastStuck(events, |events|);
      FourBehindStuck(half, events, i);
      var k :| 0 <= k < |ticks| && ticks[k] == Some(Body(4, events[i + 1].payload));
      assert !CountsThree(ticks[k]);
    } else {
      RegularUntilStuck(half, events);
    }
  }
}
