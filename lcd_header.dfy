/** The display controller's command set and the board's control-line
    conventions (LCD.h). Plain `char` is modelled as an unsigned 8-bit value. */
module LcdHeader {

  type Byte = bv8

  datatype Option<T> = None | Some(value: T)

  /** 1 for a set flag, 0 otherwise. */
  function Bit(b: bool): Byte {
    if b then 1 else 0
  }

  // ---------------------------------------------------------------------
  // Command constants, with the values the header defines.

  const LCD_CMD_CLEAR_DISPLAY: Byte := 0x01
  const LCD_CMD_RETURN_HOME: Byte := 0x02
  const LCD_CMD_RETURN_LINE2: Byte := 0xC0
  const LCD_CMD_ENTRY_MODE_INC_NO_S: Byte := 0x06
  const LCD_CMD_ENTRY_MODE_DEC_NO_S: Byte := 0x04
  const LCD_CMD_ENTRY_MODE_INC_S: Byte := 0x07
  const LCD_CMD_ENTRY_MODE_DEC_S: Byte := 0x05
  const LCD_CMD_DISPLAY_DON_CON_BON: Byte := 0x0F
  const LCD_CMD_DISPLAY_DON_CON_BOFF: Byte := 0x0E
  const LCD_CMD_DISPLAY_DON_COFF_BON: Byte := 0x0D
  const LCD_CMD_DISPLAY_DON_COFF_BOFF: Byte := 0x0C
  const LCD_CMD_DISPLAY_DOFF_CON_BON: Byte := 0x0B
  const LCD_CMD_DISPLAY_DOFF_CON_BOFF: Byte := 0x0A
  const LCD_CMD_DISPLAY_DOFF_COFF_BON: Byte := 0x09
  const LCD_CMD_DISPLAY_DOFF_COFF_BOFF: Byte := 0x08
  const LCD_CMD_FUNCTION_8B_2L_FBIG: Byte := 0x3C
  const LCD_CMD_FUNCTION_8B_2L_FSML: Byte := 0x38
  const LCD_CMD_FUNCTION_8B_1L_FBIG: Byte := 0x34
  const LCD_CMD_FUNCTION_8B_1L_FSML: Byte := 0x30
  const LCD_CMD_FUNCTION_4B_2L_FBIG: Byte := 0x2C
  const LCD_CMD_FUNCTION_4B_2L_FSML: Byte := 0x28
  const LCD_CMD_FUNCTION_4B_1L_FBIG: Byte := 0x24
  const LCD_CMD_FUNCTION_4B_1L_FSML: Byte := 0x20
  const LCD_CMD_SET_DDRAM_ADDRESS: Byte := 0x80

  /** The only error status of the driver: an invalid display-memory address. */
  const LCD_ERROR_INVALID_DDRAM_ADDRESS: int := -1000

  /** Highest display-memory (DDRAM) address the driver accepts. */
  const MAX_DDRAM_ADDRESS: Byte := 0x4F

  // ---------------------------------------------------------------------
  // Bit-field encodings of the parameterised commands.

  /** Entry mode: opcode bit 2, increment flag in bit 1, display shift in bit 0. */
  function EntryMode(increment: bool, shift: bool): (c: Byte)
    ensures c & 0xFC == 0x04
    ensures (c & 0x02 != 0) == increment
    ensures (c & 0x01 != 0) == shift
  {
    0x04 | (Bit(increment) << 1) | Bit(shift)
  }

  /** Display control: opcode bit 3, display on in bit 2, cursor on in bit 1,
      blink on in bit 0. */
  function DisplayControl(display: bool, cursor: bool, blink: bool): (c: Byte)
    ensures c & 0xF8 == 0x08
    ensures (c & 0x04 != 0) == display
    ensures (c & 0x02 != 0) == cursor
    ensures (c & 0x01 != 0) == blink
  {
    0x08 | (Bit(display) << 2) | (Bit(cursor) << 1) | Bit(blink)
  }

  /** Function set: opcode bit 5, 8-bit bus in bit 4, two lines in bit 3,
      5x10 font in bit 2; bits 1 and 0 stay clear. */
  function FunctionSet(eightBit: bool, twoLines: bool, bigFont: bool): (c: Byte)
    ensures c & 0xE0 == 0x20
    ensures (c & 0x10 != 0) == eightBit
    ensures (c & 0x08 != 0) == twoLines
    ensures (c & 0x04 != 0) == bigFont
    ensures c & 0x03 == 0
  {
    0x20 | (Bit(eightBit) << 4) | (Bit(twoLines) << 3) | (Bit(bigFont) << 2)
  }

  /** Set DDRAM address: opcode bit 7, the address in bits 6-0. */
  function SetDdramAddress(address: Byte): (c: Byte)
    requires address < 0x80
    ensures c & 0x80 == 0x80
    ensures c & 0x7F == address
  {
    LCD_CMD_SET_DDRAM_ADDRESS | address
  }

  // Decoders: the controller's reading of a command byte.

  function DecodeEntryMode(c: Byte): (r: Option<(bool, bool)>)
    ensures r.Some? <==> c & 0xFC == 0x04
    ensures r.Some? ==> EntryMode(r.value.0, r.value.1) == c
  {
    if c & 0xFC == 0x04 then Some((c & 0x02 != 0, c & 0x01 != 0)) else None
  }

  function DecodeDisplayControl(c: Byte): (r: Option<(bool, bool, bool)>)
    ensures r.Some? <==> c & 0xF8 == 0x08
    ensures r.Some? ==> DisplayControl(r.value.0, r.value.1, r.value.2) == c
  {
    if c & 0xF8 == 0x08 then Some((c & 0x04 != 0, c & 0x02 != 0, c & 0x01 != 0)) else None
  }

  function DecodeFunctionSet(c: Byte): (r: Option<(bool, bool, bool)>)
    ensures r.Some? <==> c & 0xE3 == 0x20
    ensures r.Some? ==> FunctionSet(r.value.0, r.value.1, r.value.2) == c
  {
    if c & 0xE3 == 0x20 then Some((c & 0x10 != 0, c & 0x08 != 0, c & 0x04 != 0)) else None
  }

  function DecodeDdramAddress(c: Byte): (r: Option<Byte>)
    ensures r.Some? <==> c & 0x80 == 0x80
    ensures r.Some? ==> r.value < 0x80 && SetDdramAddress(r.value) == c
  {
    if c & 0x80 == 0x80 then Some(c & 0x7F) else None
  }

  lemma EntryModeRoundTrip(increment: bool, shift: bool, c: Byte)
    ensures DecodeEntryMode(EntryMode(increment, shift)) == Some((increment, shift))
    ensures DecodeEntryMode(c).Some? ==>
              EntryMode(DecodeEntryMode(c).value.0, DecodeEntryMode(c).value.1) == c
  {
  }

  lemma DisplayControlRoundTrip(display: bool, cursor: bool, blink: bool, c: Byte)
    ensures DecodeDisplayControl(DisplayControl(display, cursor, blink)) == Some((display, cursor, blink))
    ensures DecodeDisplayControl(c).Some? ==>
              var (d, cu, b) := DecodeDisplayControl(c).value; DisplayControl(d, cu, b) == c
  {
  }

  lemma FunctionSetRoundTrip(eightBit: bool, twoLines: bool, bigFont: bool, c: Byte)
    ensures DecodeFunctionSet(FunctionSet(eightBit, twoLines, bigFont)) == Some((eightBit, twoLines, bigFont))
    ensures DecodeFunctionSet(c).Some? ==>
              var (e, t, f) := DecodeFunctionSet(c).value; FunctionSet(e, t, f) == c
  {
  }

  lemma DdramAddressRoundTrip(address: Byte, c: Byte)
    requires address < 0x80
    ensures DecodeDdramAddress(SetDdramAddress(address)) == Some(address)
    ensures DecodeDdramAddress(c).Some? ==> SetDdramAddress(DecodeDdramAddress(c).value) == c
  {
  }

  // ---------------------------------------------------------------------
  // The header's constants are exactly these encodings.

  lemma EntryModeConstants()
    ensures LCD_CMD_ENTRY_MODE_INC_NO_S == EntryMode(true, false)
    ensures LCD_CMD_ENTRY_MODE_DEC_NO_S == EntryMode(false, false)
    ensures LCD_CMD_ENTRY_MODE_INC_S == EntryMode(true, true)
    ensures LCD_CMD_ENTRY_MODE_DEC_S == EntryMode(false, true)
  {
  }

  lemma DisplayControlConstants()
    ensures LCD_CMD_DISPLAY_DON_CON_BON == DisplayControl(true, true, true)
    ensures LCD_CMD_DISPLAY_DON_CON_BOFF == DisplayControl(true, true, false)
    ensures LCD_CMD_DISPLAY_DON_COFF_BON == DisplayControl(true, false, true)
    ensures LCD_CMD_DISPLAY_DON_COFF_BOFF == DisplayControl(true, false, false)
    ensures LCD_CMD_DISPLAY_DOFF_CON_BON == DisplayControl(false, true, true)
    ensures LCD_CMD_DISPLAY_DOFF_CON_BOFF == DisplayControl(false, true, false)
    ensures LCD_CMD_DISPLAY_DOFF_COFF_BON == DisplayControl(false, false, true)
    ensures LCD_CMD_DISPLAY_DOFF_COFF_BOFF == DisplayControl(false, false, false)
  {
  }

  lemma FunctionSetConstants()
    ensures LCD_CMD_FUNCTION_8B_2L_FBIG == FunctionSet(true, true, true)
    ensures LCD_CMD_FUNCTION_8B_2L_FSML == FunctionSet(true, true, false)
    ensures LCD_CMD_FUNCTION_8B_1L_FBIG == FunctionSet(true, false, true)
    ensures LCD_CMD_FUNCTION_8B_1L_FSML == FunctionSet(true, false, false)
    ensures LCD_CMD_FUNCTION_4B_2L_FBIG == FunctionSet(false, true, true)
    ensures LCD_CMD_FUNCTION_4B_2L_FSML == FunctionSet(false, true, false)
    ensures LCD_CMD_FUNCTION_4B_1L_FBIG == FunctionSet(false, false, true)
    ensures LCD_CMD_FUNCTION_4B_1L_FSML == FunctionSet(false, false, false)
  {
  }

  /** Different flag combinations give different entry-mode bytes. */
  lemma EntryModeInjective(increment1: bool, shift1: bool, increment2: bool, shift2: bool)
    ensures EntryMode(increment1, shift1) == EntryMode(increment2, shift2) ==>
              increment1 == increment2 && shift1 == shift2
  {
    EntryModeRoundTrip(increment1, shift1, 0);
    EntryModeRoundTrip(increment2, shift2, 0);
  }

  /** Different flag combinations give different display-control bytes, so
      the eight display-control constants are pairwise distinct. */
  lemma DisplayControlInjective(display1: bool, cursor1: bool, blink1: bool,
                                display2: bool, cursor2: bool, blink2: bool)
    ensures DisplayControl(display1, cursor1, blink1) == DisplayControl(display2, cursor2, blink2) ==>
              display1 == display2 && cursor1 == cursor2 && blink1 == blink2
  {
    DisplayControlRoundTrip(display1, cursor1, blink1, 0);
    DisplayControlRoundTrip(display2, cursor2, blink2, 0);
  }

  /** Different bus widths, line counts or fonts give different function-set
      bytes, so the eight function-set constants are pairwise distinct. */
  lemma FunctionSetInjective(eightBit1: bool, twoLines1: bool, bigFont1: bool,
                             eightBit2: bool, twoLines2: bool, bigFont2: bool)
    ensures FunctionSet(eightBit1, twoLines1, bigFont1) == FunctionSet(eightBit2, twoLines2, bigFont2) ==>
              eightBit1 == eightBit2 && twoLines1 == twoLines2 && bigFont1 == bigFont2
  {
    FunctionSetRoundTrip(eightBit1, twoLines1, bigFont1, 0);
    FunctionSetRoundTrip(eightBit2, twoLines2, bigFont2, 0);
  }

  /** Every display-control byte (0x08-0x0F) is one of the eight constants. */
  lemma DisplayControlCoversAll(c: Byte)
    requires DecodeDisplayControl(c).Some?
    ensures c in {LCD_CMD_DISPLAY_DON_CON_BON, LCD_CMD_DISPLAY_DON_CON_BOFF,
                  LCD_CMD_DISPLAY_DON_COFF_BON, LCD_CMD_DISPLAY_DON_COFF_BOFF,
                  LCD_CMD_DISPLAY_DOFF_CON_BON, LCD_CMD_DISPLAY_DOFF_CON_BOFF,
                  LCD_CMD_DISPLAY_DOFF_COFF_BON, LCD_CMD_DISPLAY_DOFF_COFF_BOFF}
  {
    DisplayControlRoundTrip(false, false, false, c);
    DisplayControlConstants();
  }

  /** Every function-set byte is one of the eight constants. */
  lemma FunctionSetCoversAll(c: Byte)
    requires DecodeFunctionSet(c).Some?
    ensures c in {LCD_CMD_FUNCTION_8B_2L_FBIG, LCD_CMD_FUNCTION_8B_2L_FSML,
                  LCD_CMD_FUNCTION_8B_1L_FBIG, LCD_CMD_FUNCTION_8B_1L_FSML,
                  LCD_CMD_FUNCTION_4B_2L_FBIG, LCD_CMD_FUNCTION_4B_2L_FSML,
                  LCD_CMD_FUNCTION_4B_1L_FBIG, LCD_CMD_FUNCTION_4B_1L_FSML}
  {
    FunctionSetRoundTrip(false, false, false, c);
    FunctionSetConstants();
  }

  /** "Return to line 2" is the set-address command for address 0x40, the first
      cell of the second line; clear and home are single-bit commands. */
  lemma FixedCommands()
    ensures LCD_CMD_RETURN_LINE2 == SetDdramAddress(0x40)
    ensures DecodeDdramAddress(LCD_CMD_RETURN_LINE2) == Some(0x40)
    ensures LCD_CMD_CLEAR_DISPLAY == 1 << 0 && LCD_CMD_RETURN_HOME == 1 << 1
  {
  }

  // ---------------------------------------------------------------------
  // Control lines: which port latch each macro writes, and at which level.

  /** The two port-B output latches the driver uses. */
  datatype Latch = LatB13 | LatB14

  /** One assignment to a latch bit. */
  datatype LatchWrite = LatchWrite(latch: Latch, level: bool)

  /** Register select is LATB13: high selects data, low selects commands. */
  const RS_LATCH: Latch := LatB13
  const SET_RS: LatchWrite := LatchWrite(LatB13, true)
  const CLEAR_RS: LatchWrite := LatchWrite(LatB13, false)

  /** Chip select (the controller's enable) is LATB14 and active high. */
  const CHIP_SELECT_LATCH: Latch := LatB14
  const ACTIVATE_CHIP_SELECT: LatchWrite := LatchWrite(LatB14, true)
  const RELEASE_CHIP_SELECT: LatchWrite := LatchWrite(LatB14, false)

  /** The error code is negative, hence never the success status 0. */
  lemma ErrorCodeDistinct()
    ensures LCD_ERROR_INVALID_DDRAM_ADDRESS < 0 && LCD_ERROR_INVALID_DDRAM_ADDRESS != 0
  {
  }
}
