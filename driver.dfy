/**
  The polarity-aware part of `SevenSegment::set`, on values: the pins as the
  display sees them, the level each segment's pin is driven to, and what the
  seven guarded writes, each of which may fail and end the call, leave behind.
 */
module Driver {
  import opened Wrappers
  import opened Glyph

  /** The wiring of the display's common electrode. */
  datatype Polarity = Anode | Cathode

  /** `sealed::Polarity::is_cathode`. */
  function IsCathode(p: Polarity): (cathode: bool)
    ensures cathode <==> p == Cathode
  {
    match p
    case Anode => false
    case Cathode => true
  }

  /** `is_cathode() as u8`, the value each mask entry is compared with. */
  function CathodeBit(p: Polarity): (bit: Byte)
    ensures bit == 0 || bit == 1
    ensures bit == 1 <==> p == Cathode
  {
    if IsCathode(p) then 1 else 0
  }

  /** Pin levels. `Unwritten` is the tests' marker for a pin that was never set. */
  const Low := 0
  const High := 1
  const Unwritten := 2

  /** The platform's error value for a failed pin write; `set` forwards it unchanged. */
  datatype PinError = PinError(code: int)

  /**
    An output line: its level, an optional fault (while it holds an error, every
    write fails with that error and leaves the level as it was) and the number
    of writes made to it, failed ones included.
   */
  datatype Pin = Pin(level: int, fault: Option<PinError>, writes: nat)
  {
    /**
      `set_high` (with `level == High`) or `set_low` (with `level == Low`): the
      write succeeds exactly when the pin holds no fault; it then takes the new
      level, and otherwise keeps its level and returns the fault. Either way the
      write is counted, and the fault stays as it was.
     */
    function Write(level: int): (out: (Pin, Result<(), PinError>))
      ensures out.1.Ok? <==> fault.None?
      ensures out.1.Err? ==> out.1.error == fault.value && out.0.level == this.level
      ensures out.1.Ok? ==> out.0.level == level
      ensures out.0.writes == writes + 1 && out.0.fault == fault
    {
      if fault.Some? then (this.(writes := writes + 1), Err(fault.value))
      else (this.(level := level, writes := writes + 1), Ok(()))
    }
  }

  /**
    The level a segment's pin is driven to: high when its mask entry equals
    `is_cathode as u8`, low otherwise. For a bit, that is: high exactly when
    "the segment is lit" agrees with "the common electrode is the cathode".
   */
  function PinLevel(bit: Byte, common: Polarity): (level: int)
    ensures level == High || level == Low
    ensures bit <= 1 ==> (level == High <==> (bit == 1 <==> common == Cathode))
  {
    if bit == CathodeBit(common) then High else Low
  }

  /**
    The seven levels `set(value)` drives pins a..g to. A pin is high exactly when
    its segment is lit under a common cathode, or unlit under a common anode.
   */
  function Target(value: Byte, common: Polarity): (t: seq<int>)
    ensures |t| == 7
    ensures forall i: SegmentIndex :: t[i] == High || t[i] == Low
    ensures forall i: SegmentIndex :: t[i] == High <==> (Lit(value, i) <==> common == Cathode)
  {
    var m := MaskOf(value);
    assert forall i: SegmentIndex :: Bit(m, i) <= 1;
    [PinLevel(m.0, common), PinLevel(m.1, common), PinLevel(m.2, common), PinLevel(m.3, common),
     PinLevel(m.4, common), PinLevel(m.5, common), PinLevel(m.6, common)]
  }

  /** No pin's write fails. */
  predicate NoFaults(pins: seq<Pin>)
  {
    forall j :: 0 <= j < |pins| ==> pins[j].fault.None?
  }

  /** The first pin at or after `from` whose write fails, or `|pins|` when there is none. */
  function FirstFailure(pins: seq<Pin>, from: nat): (k: nat)
    requires from <= |pins|
    ensures from <= k <= |pins|
    ensures forall j :: from <= j < k ==> pins[j].fault.None?
    ensures k < |pins| ==> pins[k].fault.Some?
    decreases |pins| - from
  {
    if from == |pins| || pins[from].fault.Some? then from else FirstFailure(pins, from + 1)
  }

  /** The first failure is the one the writes before it do not meet. */
  lemma {:induction false} FirstFailureIs(pins: seq<Pin>, from: nat, k: nat)
    requires from <= k <= |pins|
    requires forall j :: from <= j < k ==> pins[j].fault.None?
    requires k < |pins| ==> pins[k].fault.Some?
    ensures FirstFailure(pins, from) == k
    decreases k - from
  {
    if from < k {
      FirstFailureIs(pins, from + 1, k);
    }
  }

  /** The pins after a call, and what the call returned. */
  datatype Outcome = Outcome(pins: seq<Pin>, result: Result<(), PinError>)

  /**
    The writes of `set` from pin `from` on, one at a time: each pin is written
    with its target level; when a write fails its error is returned at once
    (the `?` after every write), so no later pin is written.
   */
  function Drive(pins: seq<Pin>, target: seq<int>, from: nat): (o: Outcome)
    requires |pins| == |target| && from <= |pins|
    ensures |o.pins| == |pins|
    decreases |pins| - from
  {
    if from == |pins| then Outcome(pins, Ok(()))
    else
      var (pin, r) := pins[from].Write(target[from]);
      if r.Err? then Outcome(pins[from := pin], r)
      else Drive(pins[from := pin], target, from + 1)
  }

  /** One step of `Drive`: the write of pin `from`, then either its error or the writes after it. */
  lemma DriveStep(pins: seq<Pin>, target: seq<int>, from: nat, written: Pin, r: Result<(), PinError>)
    requires |pins| == |target| && from < |pins|
    requires (written, r) == pins[from].Write(target[from])
    ensures r.Err? ==> Drive(pins, target, from) == Outcome(pins[from := written], r)
    ensures r.Ok? ==> Drive(pins, target, from) == Drive(pins[from := written], target, from + 1)
  {
  }

  /**
    What `set(value)` leaves behind, in closed form: the pins before the first
    failing one are written once and take their target level, the failing pin
    is written once and keeps its level, the pins after it are left alone; the
    result is the first failure's error, or `Ok` when no write fails.
   */
  function AfterSet(pins: seq<Pin>, value: Byte, common: Polarity): (o: Outcome)
    requires |pins| == 7
    ensures |o.pins| == 7
    ensures o.result.Ok? <==> NoFaults(pins)
  {
    var k, t := FirstFailure(pins, 0), Target(value, common);
    Outcome(seq(7, j requires 0 <= j < 7 =>
                  if j < k then pins[j].(level := t[j], writes := pins[j].writes + 1)
                  else if j == k then pins[j].(writes := pins[j].writes + 1)
                  else pins[j]),
            if k < 7 then Err(pins[k].fault.value) else Ok(()))
  }

  /**
    Taken one pin at a time, the writes from pin `from` on leave the pins before
    `from` alone, write each pin from `from` up to the first failing one, change
    the level of those before it only, and return its error, or `Ok`.
   */
  lemma {:induction false} DriveUpToFirstFailure(pins: seq<Pin>, target: seq<int>, from: nat)
    requires |pins| == |target| && from <= |pins|
    ensures var o, k := Drive(pins, target, from), FirstFailure(pins, from);
      && (forall j :: 0 <= j < |pins| ==>
            o.pins[j] == (if from <= j < k then pins[j].(level := target[j], writes := pins[j].writes + 1)
                          else if from <= j == k then pins[j].(writes := pins[j].writes + 1)
                          else pins[j]))
      && o.result == if k < |pins| then Err(pins[k].fault.value) else Ok(())
    decreases |pins| - from
  {
    if from < |pins| && pins[from].fault.None? {
      var (pin, r) := pins[from].Write(target[from]);
      DriveUpToFirstFailure(pins[from := pin], target, from + 1);
    }
  }

  /** The closed form `AfterSet` is the seven writes taken one at a time. */
  lemma AfterSetIsDrive(pins: seq<Pin>, value: Byte, common: Polarity)
    requires |pins| == 7
    ensures AfterSet(pins, value, common) == Drive(pins, Target(value, common), 0)
  {
    DriveUpToFirstFailure(pins, Target(value, common), 0);
  }

  /** The pins' levels. */
  function Levels(pins: seq<Pin>): (s: seq<int>)
  {
    seq(|pins|, j requires 0 <= j < |pins| => pins[j].level)
  }

  /**
    A call in which no write fails returns `Ok`, leaves every pin at its target
    level and writes every pin once.
   */
  lemma SetSucceeds(pins: seq<Pin>, value: Byte, common: Polarity)
    requires |pins| == 7 && NoFaults(pins)
    ensures var o := AfterSet(pins, value, common);
      && Levels(o.pins) == Target(value, common)
      && (forall j :: 0 <= j < 7 ==> o.pins[j].writes == pins[j].writes + 1)
      && o.result == Ok(())
  {
    FirstFailureIs(pins, 0, 7);
  }

  /** After a successful call no pin keeps the "never written" marker: every pin is high or low. */
  lemma SetWritesEveryPin(pins: seq<Pin>, value: Byte, common: Polarity)
    requires |pins| == 7 && NoFaults(pins)
    ensures var o := AfterSet(pins, value, common);
      o.result == Ok(()) && forall j :: 0 <= j < 7 ==> o.pins[j].level != Unwritten
  {
    SetSucceeds(pins, value, common);
    assert forall j :: 0 <= j < 7 ==> Levels(AfterSet(pins, value, common).pins)[j] == AfterSet(pins, value, common).pins[j].level;
  }

  /**
    If the write to pin `k` fails while the writes before it succeed, the call
    returns that pin's error; pins before `k` hold their new level, pins from `k`
    on keep the level they had, and no pin after `k` is written.
   */
  lemma SetFailsFast(pins: seq<Pin>, value: Byte, common: Polarity, k: SegmentIndex)
    requires |pins| == 7
    requires (forall j :: 0 <= j < k ==> pins[j].fault.None?) && pins[k].fault.Some?
    ensures var o := AfterSet(pins, value, common);
      && o.result == Err(pins[k].fault.value)
      && Levels(o.pins)[..k] == Target(value, common)[..k]
      && Levels(o.pins)[k..] == Levels(pins)[k..]
      && (forall j :: 0 <= j <= k ==> o.pins[j].writes == pins[j].writes + 1)
      && o.pins[k + 1..] == pins[k + 1..]
  {
    FirstFailureIs(pins, 0, k);
  }

  /**
    Calling `set(value)` twice leaves the pins at the levels one call leaves them
    at, and returns what one call returns, with or without failures.
   */
  lemma SetIdempotent(pins: seq<Pin>, value: Byte, common: Polarity)
    requires |pins| == 7
    ensures var once := AfterSet(pins, value, common);
      var twice := AfterSet(once.pins, value, common);
      Levels(twice.pins) == Levels(once.pins) && twice.result == once.result
  {
    var once := AfterSet(pins, value, common);
    var k := FirstFailure(pins, 0);
    FirstFailureIs(once.pins, 0, k);
  }

  /** For the same value, each pin's target level under a common anode is the opposite of the one under a common cathode. */
  lemma PolarityInverts(value: Byte, i: SegmentIndex)
    ensures Target(value, Anode)[i] == High - Target(value, Cathode)[i]
  {
  }

  /**
    After a successful call of `set(value)`, a common-cathode pin is high exactly
    when its segment is lit, and the same pin of a common-anode display is at
    the opposite level.
   */
  lemma SuccessfulSetByPolarity(pins: seq<Pin>, value: Byte, i: SegmentIndex)
    requires |pins| == 7 && NoFaults(pins)
    ensures AfterSet(pins, value, Cathode).pins[i].level == High <==> Lit(value, i)
    ensures AfterSet(pins, value, Anode).pins[i].level == High - AfterSet(pins, value, Cathode).pins[i].level
  {
    SetSucceeds(pins, value, Cathode);
    SetSucceeds(pins, value, Anode);
    assert Levels(AfterSet(pins, value, Cathode).pins)[i] == AfterSet(pins, value, Cathode).pins[i].level;
    assert Levels(AfterSet(pins, value, Anode).pins)[i] == AfterSet(pins, value, Anode).pins[i].level;
    PolarityInverts(value, i);
  }
}
