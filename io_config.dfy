/**
 * The pin configuration word of the I/O driver: the `io_modes` enumeration
 * and the `IO_Config` bit-field structure, which packs a mode, three flags,
 * a reserved field and a pin number into one 32-bit word, together with the
 * `IO_MASK_*` constants that select its fields.
 */
module IoLayout {

  /**
   * The sixteen pin modes.  Each is a value of the four-bit CNF:MODE field
   * of a GPIO port configuration register (RM0008, section 9.2.1).
   */
  datatype IoMode =
    | InAnalog | InFloating | InPullDown | InPullUp
    | OutPushPull2MHz | OutPushPull10MHz | OutPushPull50MHz
    | OutOpenDrain2MHz | OutOpenDrain10MHz | OutOpenDrain50MHz
    | AltPushPull2MHz | AltPushPull10MHz | AltPushPull50MHz
    | AltOpenDrain2MHz | AltOpenDrain10MHz | AltOpenDrain50MHz

  /** The enumeration value of each mode. */
  function ModeCode(m: IoMode): bv4
  {
    match m
    case InAnalog => 0x0
    case InFloating => 0x4
    case InPullDown => 0x8
    case InPullUp => 0xC
    case OutPushPull2MHz => 0x2
    case OutPushPull10MHz => 0x1
    case OutPushPull50MHz => 0x3
    case OutOpenDrain2MHz => 0x6
    case OutOpenDrain10MHz => 0x5
    case OutOpenDrain50MHz => 0x7
    case AltPushPull2MHz => 0xA
    case AltPushPull10MHz => 0x9
    case AltPushPull50MHz => 0xB
    case AltOpenDrain2MHz => 0xE
    case AltOpenDrain10MHz => 0xD
    case AltOpenDrain50MHz => 0xF
  }

  /** The mode a four-bit Mode field holds. */
  function ModeOf(c: bv4): IoMode
  {
    if c == 0x0 then InAnalog
    else if c == 0x1 then OutPushPull10MHz
    else if c == 0x2 then OutPushPull2MHz
    else if c == 0x3 then OutPushPull50MHz
    else if c == 0x4 then InFloating
    else if c == 0x5 then OutOpenDrain10MHz
    else if c == 0x6 then OutOpenDrain2MHz
    else if c == 0x7 then OutOpenDrain50MHz
    else if c == 0x8 then InPullDown
    else if c == 0x9 then AltPushPull10MHz
    else if c == 0xA then AltPushPull2MHz
    else if c == 0xB then AltPushPull50MHz
    else if c == 0xC then InPullUp
    else if c == 0xD then AltOpenDrain10MHz
    else if c == 0xE then AltOpenDrain2MHz
    else AltOpenDrain50MHz
  }

  /** Every mode has its own code: reading back the code of a mode gives that mode. */
  lemma ModeCodeInjective(m: IoMode)
    ensures ModeOf(ModeCode(m)) == m
  {
  }

  /** Every four-bit value is the code of a mode, so the enumeration names each of 0x0 to 0xF exactly once. */
  lemma ModeCodeSurjective(c: bv4)
    ensures ModeCode(ModeOf(c)) == c
  {
  }

  /** The input modes: analog, floating, pull-down and pull-up. */
  predicate IsInput(m: IoMode)
  {
    m == InAnalog || m == InFloating || m == InPullDown || m == InPullUp
  }

  /** A mode is an input mode exactly when the two low bits of its code (the MODE bits) are 00. */
  lemma InputModesHaveZeroModeBits(m: IoMode)
    ensures IsInput(m) <==> ModeCode(m) & 3 == 0
  {
  }

  /** Field widths of the structure, in declaration order, and the positions they give. */
  const IO_FIELD_MODE: bv32 := 4
  const IO_FIELD_INT: bv32 := 1
  const IO_FIELD_RISE: bv32 := 1
  const IO_FIELD_FALL: bv32 := 1
  const IO_FIELD_RESERVED: bv32 := 17
  const IO_FIELD_PIN: bv32 := 8

  const INT_POS: bv32 := IO_FIELD_MODE
  const RISE_POS: bv32 := INT_POS + IO_FIELD_INT
  const FALL_POS: bv32 := RISE_POS + IO_FIELD_RISE
  const RESERVED_POS: bv32 := FALL_POS + IO_FIELD_FALL
  const PIN_POS: bv32 := RESERVED_POS + IO_FIELD_RESERVED

  /** The field masks the header defines. */
  const IO_MASK_MODE: bv32 := 0x0000_000F
  const IO_MASK_INT: bv32 := 0x0000_0010
  const IO_MASK_RISE: bv32 := 0x0000_0020
  const IO_MASK_FALL: bv32 := 0x0000_0040
  const IO_MASK_PIN: bv32 := 0xF000_0000
  /** The mask of the whole eight-bit Pin field. */
  const PIN_FIELD_MASK: bv32 := 0xFF00_0000
  const RESERVED_FIELD_MASK: bv32 := 0x00FF_FF80

  /** The `IO_Config` structure, field by field. */
  datatype IoConfig = IoConfig(mode: IoMode, interrupt: bool, rise: bool, fall: bool, reserved: bv17, pin: bv8)

  /** A one-bit flag field holding `b`. */
  function Flag(b: bool): bv1
  {
    if b then 1 else 0
  }

  /** Six field values packed from bit 0 upwards, as the compiler lays out the structure. */
  function Pack(mode: bv4, interrupt: bv1, rise: bv1, fall: bv1, reserved: bv17, pin: bv8): bv32
  {
    (mode as bv32)
    | ((interrupt as bv32) << INT_POS)
    | ((rise as bv32) << RISE_POS)
    | ((fall as bv32) << FALL_POS)
    | ((reserved as bv32) << RESERVED_POS)
    | ((pin as bv32) << PIN_POS)
  }

  /** The structure as the 32-bit word it occupies. */
  function Encode(c: IoConfig): bv32
  {
    Pack(ModeCode(c.mode), Flag(c.interrupt), Flag(c.rise), Flag(c.fall), c.reserved, c.pin)
  }

  /** The fields of a configuration word. */
  function Decode(w: bv32): IoConfig
  {
    IoConfig(
      ModeOf((w & IO_MASK_MODE) as bv4),
      w & IO_MASK_INT != 0,
      w & IO_MASK_RISE != 0,
      w & IO_MASK_FALL != 0,
      ((w & RESERVED_FIELD_MASK) >> RESERVED_POS) as bv17,
      ((w & PIN_FIELD_MASK) >> PIN_POS) as bv8)
  }

  /** The widths add up to 32 and the Pin field is the top byte. */
  lemma FieldsFillTheWord()
    ensures PIN_POS + IO_FIELD_PIN == 32
    ensures PIN_POS == 24 && RESERVED_POS == 7
  {
  }

  /** Each mask selects exactly its field of a packed word, and the fields together make up the word. */
  lemma PackedFields(mode: bv4, interrupt: bv1, rise: bv1, fall: bv1, reserved: bv17, pin: bv8)
    ensures Pack(mode, interrupt, rise, fall, reserved, pin) & IO_MASK_MODE == mode as bv32
    ensures Pack(mode, interrupt, rise, fall, reserved, pin) & IO_MASK_INT != 0 <==> interrupt == 1
    ensures Pack(mode, interrupt, rise, fall, reserved, pin) & IO_MASK_RISE != 0 <==> rise == 1
    ensures Pack(mode, interrupt, rise, fall, reserved, pin) & IO_MASK_FALL != 0 <==> fall == 1
    ensures ((Pack(mode, interrupt, rise, fall, reserved, pin) & RESERVED_FIELD_MASK) >> RESERVED_POS) as bv17 == reserved
    ensures (Pack(mode, interrupt, rise, fall, reserved, pin) & PIN_FIELD_MASK) >> PIN_POS == pin as bv32
  {
  }

  /** Decoding a packed word gives back the fields that were packed. */
  lemma DecodePack(mode: bv4, interrupt: bv1, rise: bv1, fall: bv1, reserved: bv17, pin: bv8)
    ensures Decode(Pack(mode, interrupt, rise, fall, reserved, pin))
         == IoConfig(ModeOf(mode), interrupt == 1, rise == 1, fall == 1, reserved, pin)
  {
    PackedFields(mode, interrupt, rise, fall, reserved, pin);
    DecodeFields(Pack(mode, interrupt, rise, fall, reserved, pin), mode, interrupt == 1, rise == 1, fall == 1, reserved, pin);
  }

  /** Decode reads each field through its mask. */
  lemma DecodeFields(w: bv32, mode: bv4, interrupt: bool, rise: bool, fall: bool, reserved: bv17, pin: bv8)
    requires w & IO_MASK_MODE == mode as bv32
    requires (w & IO_MASK_INT != 0) == interrupt && (w & IO_MASK_RISE != 0) == rise && (w & IO_MASK_FALL != 0) == fall
    requires ((w & RESERVED_FIELD_MASK) >> RESERVED_POS) as bv17 == reserved
    requires (w & PIN_FIELD_MASK) >> PIN_POS == pin as bv32
    ensures Decode(w) == IoConfig(ModeOf(mode), interrupt, rise, fall, reserved, pin)
  {
    assert (w & IO_MASK_MODE) as bv4 == mode;
    assert ((w & PIN_FIELD_MASK) >> PIN_POS) as bv8 == pin;
  }

  /** Packing the fields of any word gives the word back. */
  lemma FieldsPack(w: bv32)
    ensures Pack((w & IO_MASK_MODE) as bv4, Flag(w & IO_MASK_INT != 0), Flag(w & IO_MASK_RISE != 0),
                 Flag(w & IO_MASK_FALL != 0), ((w & RESERVED_FIELD_MASK) >> RESERVED_POS) as bv17,
                 ((w & PIN_FIELD_MASK) >> PIN_POS) as bv8) == w
  {
  }

  /** The four flag and mode masks select exactly their fields of an encoded configuration. */
  lemma MasksSelectFields(c: IoConfig)
    ensures Encode(c) & IO_MASK_MODE == ModeCode(c.mode) as bv32
    ensures Encode(c) & IO_MASK_INT != 0 <==> c.interrupt
    ensures Encode(c) & IO_MASK_RISE != 0 <==> c.rise
    ensures Encode(c) & IO_MASK_FALL != 0 <==> c.fall
    ensures (Encode(c) & PIN_FIELD_MASK) >> PIN_POS == c.pin as bv32
  {
    PackedFields(ModeCode(c.mode), Flag(c.interrupt), Flag(c.rise), Flag(c.fall), c.reserved, c.pin);
  }

  /** Decoding an encoded configuration gives it back. */
  lemma DecodeEncode(c: IoConfig)
    ensures Decode(Encode(c)) == c
  {
    DecodePack(ModeCode(c.mode), Flag(c.interrupt), Flag(c.rise), Flag(c.fall), c.reserved, c.pin);
    ModeCodeInjective(c.mode);
  }

  /** Encoding the fields of any word gives the word back: the six fields cover all 32 bits. */
  lemma EncodeDecode(w: bv32)
    ensures Encode(Decode(w)) == w
  {
    var code := (w & IO_MASK_MODE) as bv4;
    ModeCodeSurjective(code);
    FieldsPack(w);
  }

  /** IO_MASK_PIN as defined keeps only the top four of the eight Pin bits. */
  lemma PinMaskKeepsHighNibble(c: IoConfig)
    ensures (Encode(c) & IO_MASK_PIN) >> PIN_POS == (c.pin & 0xF0) as bv32
  {
    MasksSelectFields(c);
  }

  /** Pin 5 read through IO_MASK_PIN reads as pin 0: every pin 0 to 15 does. */
  lemma PinMaskLosesPinNumbers(c: IoConfig)
    requires c.pin < 16
    ensures (Encode(c) & IO_MASK_PIN) >> PIN_POS == 0
    ensures c.pin == 5 ==> (Encode(c) & IO_MASK_PIN) >> PIN_POS != c.pin as bv32
  {
    PinMaskKeepsHighNibble(c);
  }
}
