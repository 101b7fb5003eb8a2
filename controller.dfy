/**
 * The register state of the display controller and the rule that keeps its
 * address counter inside the memory it addresses.
 */
module Controller {
  import DisplayData

  /** Signed 8-bit integer, the type of the display shift amount. */
  newtype sbyte = x: int | -128 <= x < 128

  /**
   * The [Flags] set of visible display components. Display, Cursor and Blink
   * are the bits 1, 2 and 4 of the enum's value; None is the empty set.
   */
  datatype DisplayComponents = DisplayComponents(display: bool, cursor: bool, blink: bool)
  {
    /** The enum's integer value. */
    function Value(): (v: int)
      ensures 0 <= v < 8
      ensures (v % 2 == 1) == display
      ensures (v / 2 % 2 == 1) == cursor
      ensures (v / 4 == 1) == blink
    {
      (if display then 1 else 0) + (if cursor then 2 else 0) + (if blink then 4 else 0)
    }
  }

  const NoComponents := DisplayComponents(false, false, false)

  /** The components whose enum value is v. */
  function ComponentsOf(v: int): (c: DisplayComponents)
    requires 0 <= v < 8
    ensures c.Value() == v
  {
    DisplayComponents(v % 2 == 1, v / 2 % 2 == 1, v / 4 == 1)
  }

  /** A set of components and its enum value determine each other. */
  lemma ComponentsRoundTrip(c: DisplayComponents)
    ensures ComponentsOf(c.Value()) == c
  {
  }

  datatype DisplayFunction = OneLine5x8 | OneLine5x10 | TwoLine5x8

  /** The all-ones 7-bit pattern, the counter's wrap-around marker. */
  const AllOnes7: bv8 := 0x7F

  /**
   * The address counter setter's normalisation. While CGRAM is addressed the
   * value is kept as is. Otherwise the low 7 bits decide a wrap to the last
   * address (all ones) or to 0 (80 and above); then a value in the 40..63 gap
   * is moved to 64 or to 39 by the increment flag.
   */
  function Normalize(value: bv8, cgram: bool, increment: bool): (r: bv8)
    ensures cgram ==> r == value
    ensures !cgram && value < 128 ==> DisplayData.ValidAddress(r)
    ensures !cgram && DisplayData.ValidAddress(value) ==> r == value
  {
    if cgram then value
    else
      var v := if value & AllOnes7 == AllOnes7 then 79
               else if value & AllOnes7 >= 80 then 0
               else value;
      if 40 <= v < 64 then (if increment then 64 else 39) else v
  }

  /** Low 7 bits all ones: the counter becomes 79 (so 0 - 1 = 255 becomes 79). */
  lemma NormalizeAllOnes(value: bv8, increment: bool)
    requires value & AllOnes7 == AllOnes7
    ensures Normalize(value, false, increment) == 79
  {
  }

  /** Otherwise low 7 bits of 80 or more: the counter becomes 0 (so 79 + 1 becomes 0). */
  lemma NormalizeAboveRange(value: bv8, increment: bool)
    requires value & AllOnes7 != AllOnes7 && value & AllOnes7 >= 80
    ensures Normalize(value, false, increment) == 0
  {
  }

  /**
   * A value in the gap goes to 64 when the increment flag is set and to 39
   * otherwise, whatever produced the value (a direct load of 50 deflects too).
   */
  lemma NormalizeGap(value: bv8, increment: bool)
    requires 40 <= value < 64
    ensures Normalize(value, false, increment) == if increment then 64 else 39
  {
  }

  /** The 7-bit mask applies only to the two tests: a value with the high bit set is stored unmasked. */
  lemma NormalizeKeepsHighBit(value: bv8, increment: bool)
    requires value >= 128 && value & AllOnes7 < 80
    ensures Normalize(value, false, increment) == value
  {
  }

  /** For 7-bit inputs, normalising twice is normalising once. */
  lemma NormalizeIdempotent(value: bv8, cgram: bool, increment: bool)
    requires value < 128
    ensures Normalize(Normalize(value, cgram, increment), cgram, increment)
            == Normalize(value, cgram, increment)
  {
  }

  /** The DDRAM address after `a` in the cyclic order 0..39, 64..79. */
  function NextAddress(a: bv8): (r: bv8)
    requires DisplayData.ValidAddress(a)
    ensures DisplayData.ValidAddress(r)
  {
    if a == 39 then 64 else if a == 79 then 0 else a + 1
  }

  /** The DDRAM address before `a` in the cyclic order 0..39, 64..79. */
  function PreviousAddress(a: bv8): (r: bv8)
    requires DisplayData.ValidAddress(a)
    ensures DisplayData.ValidAddress(r)
    ensures NextAddress(r) == a
  {
    if a == 0 then 79 else if a == 64 then 39 else a - 1
  }

  /**
   * Incrementing a valid address under the increment flag, and decrementing it
   * without the flag, walk the valid DDRAM addresses cyclically, jumping the gap.
   */
  lemma NormalizeSteps(a: bv8)
    requires DisplayData.ValidAddress(a)
    ensures Normalize(a + 1, false, true) == NextAddress(a)
    ensures Normalize(a - 1, false, false) == PreviousAddress(a)
  {
  }

  /**
   * As written, stepping forward from 79 wraps to 0, so the second line ends
   * after 16 cells; a 40-cell line would continue at 80.
   */
  lemma SecondLineWrapsEarly()
    ensures Normalize(79 + 1, false, true) == 0
    ensures Normalize(0 - 1, false, false) == 79
  {
  }

  /** Normalize with the second line's last address at 103, as 40-byte lines imply. */
  function NormalizeIntended(value: bv8, cgram: bool, increment: bool): (r: bv8)
    ensures cgram ==> r == value
    ensures !cgram && value < 128 ==> DisplayData.IntendedValidAddress(r)
    ensures !cgram && DisplayData.IntendedValidAddress(value) ==> r == value
  {
    if cgram then value
    else
      var v := if value & AllOnes7 == AllOnes7 then 103
               else if value & AllOnes7 >= 104 then 0
               else value;
      if 40 <= v < 64 then (if increment then 64 else 39) else v
  }

  /** With NormalizeIntended, stepping walks all 80 addresses 0..39, 64..103 cyclically. */
  lemma NormalizeIntendedSteps(a: bv8)
    requires DisplayData.IntendedValidAddress(a)
    ensures NormalizeIntended(a + 1, false, true) == if a == 39 then 64 else if a == 103 then 0 else a + 1
    ensures NormalizeIntended(a - 1, false, false) == if a == 0 then 103 else if a == 64 then 39 else a - 1
  {
  }

  class DisplayController {
    // MPU pins
    var registerSelect: bool
    var readWrite: bool
    var dataBus: bv8

    // Internal state
    var addressCounter: bv8
    var busyFlag: bool
    var instructionRegister: bv8
    var dataRegister: bv8

    const displayDataRAM: DisplayData.DDRAM
    const characterGeneratorRAM: array<bv8>
    const characterGeneratorROM: array<bv8>

    // Simulator specific properties
    var addressingCharacterGeneratorRAM: bool
    var enabledDisplayComponents: DisplayComponents
    var incrementOnReadWrite: bool
    var shiftScreenOnReadWrite: bool
    var fourBitMode: bool
    var currentDisplayFunction: DisplayFunction
    var displayShiftAmount: sbyte

    /** The property initialisers of a new controller. */
    constructor ()
      ensures !registerSelect && !readWrite && dataBus == 0
      ensures addressCounter == 0 && !busyFlag
      ensures instructionRegister == 0 && dataRegister == 0
      ensures fresh(displayDataRAM) && fresh(displayDataRAM.data) && displayDataRAM.Valid()
      ensures forall a: bv8 :: DisplayData.ValidAddress(a) ==> displayDataRAM.Cell(a).value == 0
      ensures fresh(characterGeneratorRAM) && characterGeneratorRAM.Length == 64
      ensures fresh(characterGeneratorROM) && characterGeneratorROM.Length == 4096
      ensures forall i :: 0 <= i < 64 ==> characterGeneratorRAM[i] == 0
      ensures forall i :: 0 <= i < 4096 ==> characterGeneratorROM[i] == 0
      ensures !addressingCharacterGeneratorRAM
      ensures enabledDisplayComponents == NoComponents && enabledDisplayComponents.Value() == 0
      ensures incrementOnReadWrite && !shiftScreenOnReadWrite
      ensures !fourBitMode && currentDisplayFunction == OneLine5x8
      ensures displayShiftAmount == 0
    {
      registerSelect, readWrite, dataBus := false, false, 0;
      addressCounter, busyFlag := 0, false;
      instructionRegister, dataRegister := 0, 0;
      displayDataRAM := new DisplayData.DDRAM();
      characterGeneratorRAM := new bv8[64](_ => 0);
      characterGeneratorROM := new bv8[4096](_ => 0);
      addressingCharacterGeneratorRAM := false;
      enabledDisplayComponents := NoComponents;
      incrementOnReadWrite, shiftScreenOnReadWrite := true, false;
      fourBitMode, currentDisplayFunction := false, OneLine5x8;
      displayShiftAmount := 0;
    }

    /** The private AddressCounter setter: store the normalised value. */
    method SetAddressCounter(value: bv8)
      modifies this`addressCounter
      ensures addressCounter == Normalize(value, addressingCharacterGeneratorRAM, incrementOnReadWrite)
      ensures !addressingCharacterGeneratorRAM && value < 128 ==> DisplayData.ValidAddress(addressCounter)
    {
      var v := value;
      if !addressingCharacterGeneratorRAM {
        if v & AllOnes7 == AllOnes7 {
          v := 79;
        } else if v & AllOnes7 >= 80 {
          v := 0;
        }
        if 40 <= v < 64 {
          v := if incrementOnReadWrite then 64 else 39;
        }
      }
      addressCounter := v;
    }
  }
}
