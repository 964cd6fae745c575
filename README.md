# seven_segment in Dafny

A model of the `seven_segment` crate. It is a driver for seven-segment displays
that are wired to seven output pins, a to g, with a common anode or a common cathode.

The model has four modules:

- `Wrappers` holds `Option` and `Result`.
- `Glyph` holds the glyph table of `SevenSegment::set`. It is a total map from a `u8` to the seven segment bits a..g:
  - 0x0..0xF give the hexadecimal digits;
  - every other value gives the blank pattern.
- `Driver` holds the polarity-aware pin rule and the pin-writing sequence, on values:
  - `sealed::Polarity::is_cathode` for `Anode` and `Cathode`;
  - the level each segment's pin is driven to;
  - `Drive`, the seven fallible writes taken one at a time;
  - `AfterSet`, its closed form: what `set` leaves behind, including when a write fails and the `?` ends the call.
- `Display` holds the display object:
  - `SevenSegmentPins` and its `with_common*` conversions;
  - `SevenSegment`, a class whose fields `a`..`g` hold the pins it owns, with the imperative `set`;
  - the crate's `test_digit` scenario.

A pin is a value with three parts:

- its level (`Low` = 0, `High` = 1, and `Unwritten` = 2, the tests' marker for "never set");
- an optional fault: while it holds an error, every write returns that error and leaves the level alone;
- a count of the writes made to it.

The display owns its pins, as the Rust struct owns the pins moved into it. `set` writes each field in place, in order, and returns the first error.

## Model

| member | source | states |
|---|---|---|
| Glyph.MaskOf | src/lib.rs:158-177 | the table is total on `u8`; the blank pattern comes out exactly for values above 0xF; every entry is 0 or 1 |
| Glyph.OutOfRangeIsBlank | src/lib.rs:176 | no segment is lit for any value outside 0x0..0xF (no error for an invalid digit) |
| Glyph.GlyphsDistinct | src/lib.rs:158-175 | the sixteen digit glyphs are pairwise different |
| Glyph.TestVectors | src/lib.rs:319-401 | the mask of each of 0x0..0xF and of 0x10 is the tuple the crate's tests expect |
| Driver.IsCathode | src/lib.rs:33-43 | `is_cathode` is true exactly for a common cathode (and false for a common anode) |
| Driver.CathodeBit | src/lib.rs:179 | `is_cathode() as u8` is 0 or 1, and 1 exactly for a common cathode |
| Driver.Pin.Write | src/lib.rs:180-182 | `set_high`/`set_low` on a pin: succeeds exactly when the pin holds no fault and then sets the level; a failed write returns the fault and keeps the level; every write is counted and leaves the fault as it was |
| Driver.PinLevel | src/lib.rs:179-183 | the driven level is high or low, and for a 0/1 mask entry the test `mask.i == is_cathode as u8` means "high exactly when (segment lit iff cathode)" |
| Driver.Target | src/lib.rs:158-219 | seven levels, each high or low, and pin i is high exactly when (segment i is lit iff the common electrode is the cathode) |
| Driver.FirstFailure | src/lib.rs:180-218 | the index of the first pin whose write fails, or 7: every pin before it writes successfully, and the pin at it fails |
| Driver.FirstFailureIs | src/lib.rs:180-218 | any index with that characterisation is the first failure |
| Driver.Drive | src/lib.rs:179-220 | the writes taken one at a time keep the number of pins |
| Driver.DriveStep | src/lib.rs:179-183 | one write: a failed write ends the sequence with its error; a successful one goes on with the next pin |
| Driver.DriveUpToFirstFailure | src/lib.rs:179-220 | the writes from pin `from` on change only the pins from `from` up to the first failing one, give the earlier ones their target level, and return that pin's error or `Ok` |
| Driver.AfterSet | src/lib.rs:157-221 | what `set(v)` leaves behind: seven pins, and the result is `Ok` exactly when no pin's write fails |
| Driver.AfterSetIsDrive | src/lib.rs:179-220 | the closed form `AfterSet` equals the seven writes taken one at a time, each ended early by `?` |
| Driver.SetSucceeds | src/lib.rs:179-220 | when no write fails: result `Ok(())`, every pin at its target level, every pin written exactly once |
| Driver.SetWritesEveryPin | src/lib.rs:256-263 | after a successful call no pin keeps the "never written" marker |
| Driver.SetFailsFast | src/lib.rs:180-218 | if pin k is the first whose write fails: the result is its error, pins before k hold their target level, pins from k on keep their level, and pins after k are not written at all |
| Driver.SetIdempotent | src/lib.rs:158-219 | when no write fails, a second `set(v)` leaves the same levels and result as the first; with the model's fixed faults the failing calls agree too |
| Driver.PolarityInverts | src/lib.rs:179-219 | for the same value each pin's level under a common anode is the opposite of its level under a common cathode |
| Driver.SuccessfulSetByPolarity | src/lib.rs:179-219 | after a successful call a common-cathode pin is high exactly when its segment is lit, and the common-anode pin is at the opposite level |
| Display.SevenSegmentPins.WithCommon | src/lib.rs:96-107 | a new display holding the seven pins unchanged, field for field, with the chosen polarity |
| Display.SevenSegmentPins.WithCommonCathode | src/lib.rs:113-115 | the same as `WithCommon` with a common cathode |
| Display.SevenSegmentPins.WithCommonAnode | src/lib.rs:121-123 | the same as `WithCommon` with a common anode |
| Display.SevenSegment.constructor | src/lib.rs:97-106 | the struct literal: the fields are the given pins and polarity |
| Display.SevenSegment.WritePin | src/lib.rs:179-183 | `set_high` when the mask entry equals `is_cathode as u8`, else `set_low`: the pin is written with `PinLevel` of the entry |
| Display.SevenSegment.WriteSegment | src/lib.rs:179-219 | one of the seven blocks: only segment i's pin changes, by one write, and that write's result is returned |
| Display.SevenSegment.Set | src/lib.rs:157-221 | the pins after the call and the result are `AfterSet` of the pins before it, so all of the `Driver` lemmas above hold of the object |
| Display.ShowOnFreshPins | src/lib.rs:256-277 | seven never-written, non-failing pins moved into a display and set to a digit: `set` returns `Ok(())` (the test's `expect`) and the pins end at that digit's target levels |
| Display.Inv | src/lib.rs:230-239 | the tests' `inv`: 0 and 1 swap, any other level (the marker 2) stays as it is |
| Display.TestDigit | src/lib.rs:226-317 | the anode display's pins, inverted, equal the cathode display's pins, and both equal the digit's segment bits |

## Left out

- The `embedded_hal` `OutputPin` trait and its platform implementations (src/lib.rs:20) are not modelled. A pin is a value with a level, an injectable fault and a write count.
- The sealed-trait and `PhantomData` polarity dispatch (src/lib.rs:28-59, 133) becomes the two-valued `Polarity` stored on the display.
- The generic unification of the error types (src/lib.rs:143-152) becomes the single `PinError` type.
- The `erased::SevenSegment` alias (src/lib.rs:23-26) is a type shorthand with no behaviour.
- The tests' `TestPin` implementation of `OutputPin` (src/lib.rs:227-254) is not modelled; its 0/1 levels and its marker 2 for "never written" are the pin levels here.
- The test pins are `&mut TestPin` borrowed into the display; the model moves pin values in and reads them back from the display's fields afterwards.
- Driver.Pin: a pin's fault is fixed for its lifetime, so faults that come and go, and a retried `set` that gets past a pin which failed before, are not modelled.
- Pin aliasing is not modelled. The display owns seven distinct pin values, as Rust's move of the pins guarantees.
- What a real pin does on a failed write is up to its platform. The model assumes the level is unchanged and the attempt counts as a write.
- The doc comment at src/lib.rs:156 says only 0-9 are valid. The code and its tests also draw 0xA..0xF, and the model follows the code.
