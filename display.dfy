/**
  The display object: seven output pins moved into a `SevenSegment` together with
  the polarity of the common electrode, and `set`, which writes the pins a..g one
  after another and stops at the first write that fails.
 */
module Display {
  import opened Wrappers
  import opened Glyph
  import opened Driver

  /** The seven pins before a polarity is chosen; segment a..g is wired to pin `a`..`g`. */
  datatype SevenSegmentPins = SevenSegmentPins(a: Pin, b: Pin, c: Pin, d: Pin, e: Pin, f: Pin, g: Pin)
  {
    /** The pins in the order a..g. */
    function Seq(): (s: seq<Pin>)
      ensures |s| == 7 && s[0] == a && s[6] == g
    {
      [a, b, c, d, e, f, g]
    }

    /** Moves the pins, unchanged and field for field, into a display with the given polarity. */
    method WithCommon(common: Polarity) returns (s: SevenSegment)
      ensures fresh(s) && s.Pins() == this && s.common == common
    {
      s := new SevenSegment(this, common);
    }

    /** The same as `WithCommon(Cathode)`. */
    method WithCommonCathode() returns (s: SevenSegment)
      ensures fresh(s) && s.Pins() == this && s.common == Cathode
    {
      s := WithCommon(Cathode);
    }

    /** The same as `WithCommon(Anode)`. */
    method WithCommonAnode() returns (s: SevenSegment)
      ensures fresh(s) && s.Pins() == this && s.common == Anode
    {
      s := WithCommon(Anode);
    }
  }

  /** A seven-segment display that owns its seven pins. */
  class SevenSegment {
    const common: Polarity
    var a: Pin
    var b: Pin
    var c: Pin
    var d: Pin
    var e: Pin
    var f: Pin
    var g: Pin

    /** The seven fields as the pins value they were built from. */
    function Pins(): SevenSegmentPins
      reads this
    {
      SevenSegmentPins(a, b, c, d, e, f, g)
    }

    /** The same pins as a sequence in the order a..g, the form `Driver` reasons about. */
    function PinSeq(): (s: seq<Pin>)
      reads this
    {
      Pins().Seq()
    }

    constructor (pins: SevenSegmentPins, common: Polarity)
      ensures Pins() == pins && this.common == common
    {
      this.common := common;
      a, b, c, d, e, f, g := pins.a, pins.b, pins.c, pins.d, pins.e, pins.f, pins.g;
    }

    /**
      Writes one pin for its mask entry: `set_high` when the entry equals
      `is_cathode as u8`, `set_low` otherwise; that is, the pin is written with
      the level `PinLevel` gives the entry.
     */
    method WritePin(pin: Pin, bit: Byte) returns (written: Pin, r: Result<(), PinError>)
      ensures (written, r) == pin.Write(PinLevel(bit, common))
    {
      if bit == CathodeBit(common) {
        var (w, res) := pin.Write(High);
        written, r := w, res;
      } else {
        var (w, res) := pin.Write(Low);
        written, r := w, res;
      }
    }

    /**
      One of the seven blocks of `set`: writes the pin of segment `i` for its
      mask entry. Only that pin changes, and the write's result is returned.
     */
    method WriteSegment(i: SegmentIndex, bit: Byte) returns (r: Result<(), PinError>)
      modifies this
      ensures var (pin, result) := old(PinSeq())[i].Write(PinLevel(bit, common));
        PinSeq() == old(PinSeq())[i := pin] && r == result
    {
      match i
      case 0 => a, r := WritePin(a, bit);
      case 1 => b, r := WritePin(b, bit);
      case 2 => c, r := WritePin(c, bit);
      case 3 => d, r := WritePin(d, bit);
      case 4 => e, r := WritePin(e, bit);
      case 5 => f, r := WritePin(f, bit);
      case 6 => g, r := WritePin(g, bit);
    }

    /**
      Shows `value`: looks up its mask and writes the segments a..g in order,
      returning the first write's error as soon as one fails. The pins and the
      result are `AfterSet` of the pins before the call.
     */
    method Set(value: Byte) returns (r: Result<(), PinError>)
      modifies this
      ensures Outcome(PinSeq(), r) == AfterSet(old(PinSeq()), value, common)
    {
      var mask := MaskOf(value);
      ghost var t := Target(value, common);
      assert t == [PinLevel(mask.0, common), PinLevel(mask.1, common), PinLevel(mask.2, common),
                   PinLevel(mask.3, common), PinLevel(mask.4, common), PinLevel(mask.5, common),
                   PinLevel(mask.6, common)];
      AfterSetIsDrive(PinSeq(), value, common);
      // Before each write, `Drive` of the current pins from that segment on is what the call must produce.
      ghost var beforeA := PinSeq();
      r := WriteSegment(0, mask.0);
      DriveStep(beforeA, t, 0, PinSeq()[0], r);
      if r.Err? { return; }
      ghost var beforeB := PinSeq();
      r := WriteSegment(1, mask.1);
      DriveStep(beforeB, t, 1, PinSeq()[1], r);
      if r.Err? { return; }
      ghost var beforeC := PinSeq();
      r := WriteSegment(2, mask.2);
      DriveStep(beforeC, t, 2, PinSeq()[2], r);
      if r.Err? { return; }
      ghost var beforeD := PinSeq();
      r := WriteSegment(3, mask.3);
      DriveStep(beforeD, t, 3, PinSeq()[3], r);
      if r.Err? { return; }
      ghost var beforeE := PinSeq();
      r := WriteSegment(4, mask.4);
      DriveStep(beforeE, t, 4, PinSeq()[4], r);
      if r.Err? { return; }
      ghost var beforeF := PinSeq();
      r := WriteSegment(5, mask.5);
      DriveStep(beforeF, t, 5, PinSeq()[5], r);
      if r.Err? { return; }
      ghost var beforeG := PinSeq();
      r := WriteSegment(6, mask.6);
      DriveStep(beforeG, t, 6, PinSeq()[6], r);
      if r.Err? { return; }
      r := Ok(());
    }
  }

  /** The tests' `TestPin::inv`: swaps 0 and 1 and keeps any other level, so an unwritten pin stays visible. */
  function Inv(level: int): (inverted: int)
    ensures level == Low || level == High ==> inverted == High - level
    ensures level != Low && level != High ==> inverted == level
  {
    if level == 0 then 1 else if level == 1 then 0 else level
  }

  /**
    One half of the crate's `test_digit`: seven never-written pins that do not
    fail are moved into a display with the given polarity and `set(digit)` is
    called; it succeeds (the test's `expect`) and the pins end at the digit's
    target levels.
   */
  method ShowOnFreshPins(digit: Byte, common: Polarity) returns (r: Result<(), PinError>, levels: seq<int>)
    ensures r == Ok(())
    ensures levels == Target(digit, common)
  {
    var unset := Pin(Unwritten, None, 0);
    var pins := SevenSegmentPins(unset, unset, unset, unset, unset, unset, unset);
    var s;
    if common == Anode {
      s := pins.WithCommonAnode();
    } else {
      s := pins.WithCommonCathode();
    }
    r := s.Set(digit);
    SetSucceeds([unset, unset, unset, unset, unset, unset, unset], digit, common);
    levels := [s.a.level, s.b.level, s.c.level, s.d.level, s.e.level, s.f.level, s.g.level];
    assert levels == Levels(s.PinSeq());
  }

  /**
    The crate's `test_digit`: the pins driven through a common-anode display,
    inverted, equal those driven through a common-cathode display, and both
    equal the digit's segment bits.
   */
  method TestDigit(digit: Byte) returns (anodeInverted: seq<int>, cathode: seq<int>)
    ensures anodeInverted == cathode
    ensures |cathode| == 7 && forall i: SegmentIndex :: cathode[i] == Bit(MaskOf(digit), i)
  {
    var anodeResult, anode := ShowOnFreshPins(digit, Anode);
    anodeInverted := [Inv(anode[0]), Inv(anode[1]), Inv(anode[2]), Inv(anode[3]), Inv(anode[4]), Inv(anode[5]), Inv(anode[6])];
    var cathodeResult;
    cathodeResult, cathode := ShowOnFreshPins(digit, Cathode);
    forall i: SegmentIndex
      ensures anodeInverted[i] == cathode[i] && cathode[i] == Bit(MaskOf(digit), i)
    {
      PolarityInverts(digit, i);
    }
  }
}
