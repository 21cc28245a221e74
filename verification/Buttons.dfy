/** The button interrupt of the remote terminal unit: edge registers that are turned over
    at every event, and the events it reports. */
module Buttons {

  const NUM_BUTTONS := 3

  datatype RtuEvent =
    | BTN0_FALLING | BTN0_RISING
    | BTN1_FALLING | BTN1_RISING
    | BTN2_FALLING | BTN2_RISING

  function ButtonOf(e: RtuEvent): (i: nat)
    ensures i < NUM_BUTTONS
  {
    match e
    case BTN0_FALLING => 0
    case BTN0_RISING => 0
    case BTN1_FALLING => 1
    case BTN1_RISING => 1
    case BTN2_FALLING => 2
    case BTN2_RISING => 2
  }

  predicate IsRising(e: RtuEvent) {
    e.BTN0_RISING? || e.BTN1_RISING? || e.BTN2_RISING?
  }

  function EventOf(i: nat, rising: bool): (e: RtuEvent)
    requires i < NUM_BUTTONS
    ensures ButtonOf(e) == i && IsRising(e) == rising
  {
    if i == 0 then if rising then BTN0_RISING else BTN0_FALLING
    else if i == 1 then if rising then BTN1_RISING else BTN1_FALLING
    else if rising then BTN2_RISING else BTN2_FALLING
  }

  /** The six events by name. */
  lemma EventNames(e: RtuEvent)
    ensures ButtonOf(e) == 0 <==> e == BTN0_FALLING || e == BTN0_RISING
    ensures ButtonOf(e) == 1 <==> e == BTN1_FALLING || e == BTN1_RISING
    ensures ButtonOf(e) == 2 <==> e == BTN2_FALLING || e == BTN2_RISING
    ensures IsRising(e) <==> e == BTN0_RISING || e == BTN1_RISING || e == BTN2_RISING
  {
  }

  /** What the kernel sends to user space. */
  datatype Status = Status(buttonStatus: seq<int>, lineVoltage: int, time: int, event: RtuEvent)

  /** A 32-bit register, as the set of its bits that are 1: testing with 1 << i is
      membership, or-ing and and-ing with masks are union and difference. */
  type Register = r: set<nat> | forall b :: b in r ==> b < 32

  const BUTTON_BITS: Register := {0, 1, 2}

  /** The polarity register and the events reported so far. */
  datatype Gpio = Gpio(type2: Register, events: seq<RtuEvent>)

  /** A reported edge turns over the button's polarity. */
  function Report(g: Gpio, i: nat): (r: Gpio)
    requires i < NUM_BUTTONS
  {
    Gpio(if i in g.type2 then g.type2 - {i} else g.type2 + {i}, g.events + [EventOf(i, i in g.type2)])
  }

  /** One interrupt with the pending buttons of mask. */
  function Interrupt(g: Gpio, mask: Register): (r: Gpio) {
    if 0 in mask then Report(g, 0)
    else if 1 in mask then Report(g, 1)
    else if 2 in mask then Report(g, 2)
    else g
  }

  function Interrupts(g: Gpio, masks: seq<Register>): (r: Gpio) {
    if masks == [] then g else Interrupt(Interrupts(g, masks[..|masks| - 1]), masks[|masks| - 1])
  }

  /** The edges of one button, oldest first: true for rising. */
  function EdgesOf(events: seq<RtuEvent>, i: nat): (r: seq<bool>) {
    if events == [] then []
    else
      var last := events[|events| - 1];
      EdgesOf(events[..|events| - 1], i) + (if ButtonOf(last) == i then [IsRising(last)] else [])
  }

  /** Falling, rising, falling, ... */
  ghost predicate Alternates(edges: seq<bool>) {
    forall k :: 0 <= k < |edges| ==> edges[k] == (k % 2 == 1)
  }

  lemma EdgesAdd(events: seq<RtuEvent>, e: RtuEvent, i: nat)
    ensures EdgesOf(events + [e], i) == EdgesOf(events, i) + (if ButtonOf(e) == i then [IsRising(e)] else [])
  {
    assert (events + [e])[..|events|] == events;
  }

  lemma NoButton(r: Register)
    ensures r * BUTTON_BITS == {} <==> 0 !in r && 1 !in r && 2 !in r
  {
    var both := r * BUTTON_BITS;
    assert (0 in r <==> 0 in both) && (1 in r <==> 1 in both) && (2 in r <==> 2 in both);
    assert both != {} ==> exists b :: b in both;
  }

  /** An interrupt reports exactly one event, of the lowest pending button, if any is: the edge
      that its polarity bit asked for, and this bit alone is turned over. */
  lemma OneEvent(g: Gpio, mask: Register)
    ensures var r := Interrupt(g, mask);
            if mask * BUTTON_BITS == {} then r == g
            else
              && |r.events| == |g.events| + 1 && g.events == r.events[..|g.events|]
              && var i := ButtonOf(r.events[|g.events|]);
                 && i in mask && (forall j :: 0 <= j < i ==> j !in mask)
                 && (IsRising(r.events[|g.events|]) <==> i in g.type2)
                 && (i in r.type2 <==> i !in g.type2) && r.type2 - {i} == g.type2 - {i}
  {
    NoButton(mask);
  }

  /** The polarity register holds the parity of every button's reported edges. */
  ghost predicate Tracks(g: Gpio, initial: Register) {
    && g.type2 - BUTTON_BITS == initial - BUTTON_BITS
    && forall i :: 0 <= i < NUM_BUTTONS ==>
                     && Alternates(EdgesOf(g.events, i))
                     && (i in g.type2 <==> |EdgesOf(g.events, i)| % 2 == 1)
  }

  lemma ReportTracks(g: Gpio, initial: Register, i: nat)
    requires Tracks(g, initial) && i < NUM_BUTTONS
    ensures Tracks(Report(g, i), initial)
  {
    var r := Report(g, i);
    forall j | 0 <= j < NUM_BUTTONS
      ensures Alternates(EdgesOf(r.events, j))
      ensures j in r.type2 <==> |EdgesOf(r.events, j)| % 2 == 1
    {
      EdgesAdd(g.events, EventOf(i, i in g.type2), j);
    }
  }

  lemma InterruptTracks(g: Gpio, initial: Register, mask: Register)
    requires Tracks(g, initial)
    ensures Tracks(Interrupt(g, mask), initial)
  {
    hide Tracks, Report;
    if 0 in mask {
      ReportTracks(g, initial, 0);
    } else if 1 in mask {
      ReportTracks(g, initial, 1);
    } else if 2 in mask {
      ReportTracks(g, initial, 2);
    }
  }

  /** The registers as initialisation leaves them. */
  lemma StartTracks(type2: Register)
    requires type2 * BUTTON_BITS == {}
    ensures Tracks(Gpio(type2, []), type2)
  {
    NoButton(type2);
    assert forall i :: EdgesOf([], i) == [];
  }

  /** Over every run of interrupts after initialisation, each button's events alternate,
      falling first. */
  lemma {:induction false} RunAlternates(type2: Register, masks: seq<Register>)
    requires type2 * BUTTON_BITS == {}
    ensures Tracks(Interrupts(Gpio(type2, []), masks), type2)
  {
    hide Tracks, Interrupt;
    if masks == [] {
      StartTracks(type2);
    } else {
      var before := masks[..|masks| - 1];
      RunAlternates(type2, before);
      InterruptTracks(Interrupts(Gpio(type2, []), before), type2, masks[|masks| - 1]);
    }
  }

  function Ones(b: bool): (n: nat) {
    if b then 1 else 0
  }

  /** The edges of button i that were pending at the interrupts of a run. */
  function Pending(masks: seq<Register>, i: nat): (n: nat) {
    if masks == [] then 0
    else Pending(masks[..|masks| - 1], i) + Ones(i in masks[|masks| - 1])
  }

  /** Those that an interrupt clears without an event, because a lower button was pending. */
  function Coalesced(masks: seq<Register>, i: nat): (n: nat) {
    if masks == [] then 0
    else
      var m := masks[|masks| - 1];
      Coalesced(masks[..|masks| - 1], i) + Ones(i in m && exists j :: 0 <= j < i && j in m)
  }

  /** One interrupt reports an edge of button i exactly when i is the lowest one pending. */
  lemma InterruptEdges(g: Gpio, mask: Register, i: nat)
    requires i < NUM_BUTTONS
    ensures |EdgesOf(Interrupt(g, mask).events, i)| ==
            |EdgesOf(g.events, i)| + Ones(i in mask && forall j :: 0 <= j < i ==> j !in mask)
  {
    hide EdgesOf;
    forall b: nat | b < NUM_BUTTONS
      ensures |EdgesOf(Report(g, b).events, i)| == |EdgesOf(g.events, i)| + Ones(b == i)
    {
      EdgesAdd(g.events, EventOf(b, b in g.type2), i);
    }
  }

  /** No edge of a button is lost but by coalescing, and none is invented or reported for
      another button. */
  lemma {:induction false} EdgesConserved(g: Gpio, masks: seq<Register>, i: nat)
    requires i < NUM_BUTTONS
    ensures |EdgesOf(Interrupts(g, masks).events, i)| + Coalesced(masks, i) ==
            |EdgesOf(g.events, i)| + Pending(masks, i)
  {
    if masks != [] {
      var before := masks[..|masks| - 1];
      EdgesConserved(g, before, i);
      InterruptEdges(Interrupts(g, before), masks[|masks| - 1], i);
    }
  }

  /** The registers of port B that matter here, and the queue to user space. */
  class PortB {
    var pbdr: Register
    var intEn: Register
    var intType1: Register
    var intType2: Register
    var eoi: Register
    var debounce: Register
    var intSts: Register
    var fifo: seq<Status>

    constructor () {
      fifo := [];
    }

    ghost function Reported(): (r: Gpio)
      reads this`intType2, this`fifo
    {
      Gpio(intType2, EventsOf(fifo))
    }

    /** The edge-register part of the module's initialisation: falling edges first. */
    method InitEdges()
      modifies this`eoi, this`intEn, this`intType1, this`intType2, this`debounce
      ensures intType2 * BUTTON_BITS == {} && intType2 == old(intType2) - {0, 1, 2}
      ensures intEn == {0, 1, 2} && intType1 == {0, 1, 2} && debounce == {0, 1, 2}
      ensures eoi == old(eoi) + {0, 1, 2}
    {
      eoi := eoi + {0, 1, 2};
      intEn := {0, 1, 2};
      intType1 := {0, 1, 2};
      intType2 := intType2 - {0, 1, 2};
      debounce := {0, 1, 2};
    }

    /** One button's event: the edge asked for is reported and the polarity turned over. */
    method Turn(i: nat, rising: RtuEvent, falling: RtuEvent) returns (event: RtuEvent)
      requires i < 32
      modifies this`intType2
      ensures event == if i in old(intType2) then rising else falling
      ensures intType2 == if i in old(intType2) then old(intType2) - {i} else old(intType2) + {i}
    {
      if i in intType2 {
        event := rising;
        intType2 := intType2 - {i};
      } else {
        event := falling;
        intType2 := intType2 + {i};
      }
    }

    method Send(levels: seq<int>, now: int, event: RtuEvent)
      modifies this`fifo
      ensures fifo == old(fifo) + [Status(levels, 555, now, event)]
      ensures EventsOf(fifo) == EventsOf(old(fifo)) + [event]
    {
      fifo := fifo + [Status(levels, 555, now, event)];
    }

    /** The interrupt handler: at most one event is sent, with the levels of all three
        pins, and all pending edges are acknowledged. */
    method ButtonHandler(now: int)
      modifies this`intType2, this`eoi, this`fifo
      ensures Reported() == Interrupt(old(Reported()), intSts)
      ensures eoi == old(eoi) + {0, 1, 2, 3, 4}
      ensures |fifo| == |old(fifo)| + if 0 in intSts || 1 in intSts || 2 in intSts then 1 else 0
      ensures old(fifo) == fifo[..|old(fifo)|]
      ensures 0 in intSts ==>
                fifo[|old(fifo)|].event == if 0 in old(intType2) then BTN0_RISING else BTN0_FALLING
      ensures 0 !in intSts && 1 in intSts ==>
                fifo[|old(fifo)|].event == if 1 in old(intType2) then BTN1_RISING else BTN1_FALLING
      ensures 0 !in intSts && 1 !in intSts && 2 in intSts ==>
                fifo[|old(fifo)|].event == if 2 in old(intType2) then BTN2_RISING else BTN2_FALLING
      ensures |old(fifo)| < |fifo| ==>
                var st := fifo[|old(fifo)|];
                && st.lineVoltage == 555 && st.time == now && |st.buttonStatus| == 3
                && forall i :: 0 <= i < 3 ==> st.buttonStatus[i] == if i in pbdr then 1 else 0
    {
      hide EventsOf;
      var levels := [if 0 in pbdr then 1 else 0, if 1 in pbdr then 1 else 0, if 2 in pbdr then 1 else 0];
      if 0 in intSts {
        var event := Turn(0, BTN0_RISING, BTN0_FALLING);
        Send(levels, now, event);
      } else if 1 in intSts {
        var event := Turn(1, BTN1_RISING, BTN1_FALLING);
        Send(levels, now, event);
      } else if 2 in intSts {
        var event := Turn(2, BTN2_RISING, BTN2_FALLING);
        Send(levels, now, event);
      }
      eoi := eoi + {0, 1, 2, 3, 4};
    }
  }

  function EventsOf(fifo: seq<Status>): (r: seq<RtuEvent>) {
    seq(|fifo|, k requires 0 <= k < |fifo| => fifo[k].event)
  }
}
