/**
 * The character display of main/lcd_ascii.c: an HD44780 controller in
 * 4-bit mode behind an I2C port expander. Every byte the driver hands to
 * the expander is appended to the `sent` field of the display object; the
 * I2C transfer itself, its mutex and the sleeps between writes are not
 * modelled. On the expander byte, bits 7-4 drive the controller's D7-D4,
 * bit 3 the backlight, bit 2 ENABLE, bit 1 READ/WRITE and bit 0 REGISTER
 * SELECT.
 */
module LcdAscii {

  // Instructions (main/lcd_ascii.h).
  const ClearDisplay: bv8 := 0x01
  const ReturnHome: bv8 := 0x02
  const EntryModeSet: bv8 := 0x04
  const DisplayControl: bv8 := 0x08
  const FunctionSet: bv8 := 0x20
  const SetDdramAddr: bv8 := 0x80

  // Entry-mode flags.
  const EntryLeft: bv8 := 0x02
  const EntryShiftDecrement: bv8 := 0x00

  // Display-control flags; DisplayOn is also the value of LCD_DISPLAY_ON.
  const DisplayOn: bv8 := 0x04
  const CursorOff: bv8 := 0x00
  const BlinkOff: bv8 := 0x00

  // Function-set flags.
  const FourBitMode: bv8 := 0x00
  const TwoLine: bv8 := 0x08
  const OneLine: bv8 := 0x00
  const FiveByTenDots: bv8 := 0x04
  const FiveByEightDots: bv8 := 0x00

  // Backlight modes.
  const BacklightOff: bv8 := 0x00
  const BacklightOn: bv8 := 0x08

  // Control lines on the expander byte.
  const EnableBit: bv8 := 0x04
  const ReadWriteBit: bv8 := 0x02
  const RegSelectBit: bv8 := 0x01

  /** The DDRAM address of column 0 of each of the four rows. */
  const RowOffsets: seq<int> := [0x00, 0x40, 0x14, 0x54]

  /** The size of the text buffer of lcd_printf. */
  const TextBufferSize: int := 16

  /** The two results the driver returns: ESP_OK and ESP_ERR_INVALID_ARG. */
  datatype EspErr = Ok | InvalidArg

  /** The font requested at initialisation. */
  datatype CharSize = Small | Big

  datatype CursorMode = CursorModeOff | CursorBlink | CursorModeOn
  datatype ScrollDir = ScrollLeft | ScrollRight | ScrollAuto | ScrollNoAuto
  datatype TextDir = LeftToRight | RightToLeft

  // ---------------------------------------------------------------------
  // Encoding
  // ---------------------------------------------------------------------

  /** The argument check every public procedure but init and free starts with. */
  function CheckArg(lcd: Lcd?): (err: EspErr)
    ensures err == InvalidArg <==> lcd == null
  {
    if lcd == null then InvalidArg else Ok
  }

  /** A uint8_t argument taken as a number. */
  type Byte = x: int | 0 <= x < 256

  /** An instruction code with its option flags. */
  function Instruction(code: bv8, flags: bv8): bv8 {
    code | flags
  }

  /** The upper four bits of a byte, in place. */
  function HighNibble(val: bv8): bv8 {
    val & 0xF0
  }

  /** The lower four bits of a byte, moved to the upper half. */
  function LowNibble(val: bv8): bv8 {
    (val << 4) & 0xF0
  }

  /** One byte of a transfer: a nibble on D7-D4 with the flags, the backlight bit and `enable`. */
  function FrameByte(nib: bv8, flags: bv8, backlight: bv8, enable: bv8): bv8 {
    nib | flags | backlight | enable
  }

  /** The byte the controller reassembles from the two nibbles it latches. */
  function Unpack(frames: seq<bv8>): bv8
    requires |frames| == 4
  {
    (frames[1] & 0xF0) | ((frames[3] & 0xF0) >> 4)
  }

  /**
   * The four expander bytes that transfer `val`: the high nibble with
   * ENABLE raised and then without it, then the low nibble likewise, each
   * carrying `flags` and the backlight bit.
   */
  function Frames(val: bv8, flags: bv8, backlight: bv8): (f: seq<bv8>)
    ensures |f| == 4
  {
    var hiNib, loNib := HighNibble(val), LowNibble(val);
    [FrameByte(hiNib, flags, backlight, EnableBit),
     FrameByte(hiNib, flags, backlight, 0),
     FrameByte(loNib, flags, backlight, EnableBit),
     FrameByte(loNib, flags, backlight, 0)]
  }

  /** The text bytes of `s`, each sent as data (REGISTER SELECT raised), in order. */
  function TextFrames(s: seq<bv8>, backlight: bv8): (f: seq<bv8>)
    ensures |f| == 4 * |s|
  {
    if |s| == 0 then []
    else TextFrames(s[..|s| - 1], backlight) + Frames(s[|s| - 1], RegSelectBit, backlight)
  }

  /** The text the controller receives from a run of four-byte transfers. */
  function UnpackText(f: seq<bv8>): seq<bv8>
    requires |f| % 4 == 0
  {
    if |f| == 0 then [] else UnpackText(f[..|f| - 4]) + [Unpack(f[|f| - 4..])]
  }

  /** The single byte lcd_write_data hands to the expander: the value with the backlight bit. */
  function WireByte(val: bv8, backlight: bv8): bv8 {
    val | backlight
  }

  /** `data` with ENABLE raised. */
  function Raised(data: bv8): bv8 {
    data | EnableBit
  }

  /** `data` with ENABLE cleared. */
  function Lowered(data: bv8): bv8 {
    data & !EnableBit
  }

  /** The two bytes of an enable pulse: `data` with ENABLE raised, then with ENABLE cleared. */
  function PulseBytes(data: bv8, backlight: bv8): (p: seq<bv8>)
    ensures |p| == 2
  {
    [WireByte(Raised(data), backlight), WireByte(Lowered(data), backlight)]
  }

  /** The bytes of lcd_write_nibble: the nibble itself, then an enable pulse of it. */
  function NibbleBytes(nib: bv8, backlight: bv8): seq<bv8> {
    [WireByte(nib, backlight)] + PulseBytes(nib, backlight)
  }

  /**
   * The function-set flags lcd_init chooses: 4-bit mode, two lines when
   * there is more than one row, the 5x10 font only on a one-row display.
   */
  function DisplayFunction(rows: int, dots: CharSize): (f: bv8)
    ensures f & TwoLine != 0 <==> rows > 1
    ensures f & FiveByTenDots != 0 <==> dots == Big && rows == 1
    ensures f & !(TwoLine | FiveByTenDots) == 0
  {
    var f := FourBitMode | OneLine | FiveByEightDots;
    var f := if rows > 1 then f | TwoLine else f;
    if dots == Big && rows == 1 then f | FiveByTenDots else f
  }

  /**
   * The bytes lcd_init sends, given the function-set flags it chose: the
   * backlight off, the display on, the three 8-bit resets (0x03 << 4) and
   * the switch to 4-bit mode (0x02 << 4) as single nibbles, then function
   * set, clear, display control, clear, entry mode and home.
   */
  function InitSequence(displayFunc: bv8): seq<bv8> {
    [WireByte(BacklightOff, BacklightOff)]
    + Frames(Instruction(DisplayControl, DisplayOn), 0, BacklightOn)
    + NibbleBytes(0x30, BacklightOn)
    + NibbleBytes(0x30, BacklightOn)
    + NibbleBytes(0x30, BacklightOn)
    + NibbleBytes(0x20, BacklightOn)
    + Frames(Instruction(FunctionSet, displayFunc), 0, BacklightOn)
    + Frames(ClearDisplay, 0, BacklightOn)
    + Frames(Instruction(DisplayControl, DisplayOn | CursorOff | BlinkOff), 0, BacklightOn)
    + Frames(ClearDisplay, 0, BacklightOn)
    + Frames(Instruction(EntryModeSet, EntryLeft | EntryShiftDecrement), 0, BacklightOn)
    + Frames(ReturnHome, 0, BacklightOn)
  }

  /**
   * The row clamp as lcd_cursor_pos writes it: a row is replaced by the
   * last row only when it exceeds the row count (the int is narrowed to
   * uint8_t on assignment).
   */
  function ClampRowAsWritten(row: Byte, numRows: int): (r: Byte)
    ensures row <= numRows ==> r == row
    ensures row > numRows && 1 <= numRows ==> r == numRows - 1
  {
    if row > numRows then (numRows - 1) % 256 else row
  }

  /**
   * The row clamp corrected: every row at or beyond the row count becomes
   * the last row, so on a display of one to 256 rows the result is a row
   * the display has.
   */
  function ClampRow(row: Byte, numRows: int): (r: Byte)
    ensures 1 <= numRows <= 256 ==> r < numRows
    ensures row < numRows ==> r == row
    ensures row >= numRows && 1 <= numRows <= 256 ==> r == numRows - 1
  {
    if row >= numRows then (numRows - 1) % 256 else row
  }

  /**
   * The DDRAM address of column `col` of row `row`, narrowed to a byte; on
   * a display of up to twenty columns it names exactly that position.
   */
  function DdramAddress(col: Byte, row: int): (addr: Byte)
    requires 0 <= row < |RowOffsets|
    ensures col < 20 ==> addr < 0x80 && DdramPosition(addr) == (col, row)
  {
    (col + RowOffsets[row]) % 256
  }

  /**
   * The (column, row) of a DDRAM address on a four-row display of up to
   * twenty columns: rows 0 and 2 continue each other from 0x00, rows 1 and
   * 3 from 0x40.
   */
  function DdramPosition(addr: int): (int, int) {
    if addr >= 0x54 then (addr - 0x54, 3)
    else if addr >= 0x40 then (addr - 0x40, 1)
    else if addr >= 0x14 then (addr - 0x14, 2)
    else (addr, 0)
  }

  /** The Set DDRAM Address instruction for column `col` of row `row`. */
  function CursorCommand(col: Byte, row: int): bv8
    requires 0 <= row < |RowOffsets|
  {
    Instruction(SetDdramAddr, DdramAddress(col, row) as bv8)
  }

  /** strlen: the bytes before the first NUL, or all of them when there is none. */
  function Strlen(buf: seq<bv8>): (n: nat)
    ensures n <= |buf|
    ensures forall i :: 0 <= i < n ==> buf[i] != 0
    ensures n < |buf| ==> buf[n] == 0
  {
    if |buf| == 0 || buf[0] == 0 then 0 else 1 + Strlen(buf[1..])
  }

  /**
   * How many characters lcd_printf sends: the text length, cut to the
   * column count and to the buffer size; none when the column count is
   * negative.
   */
  function CharsShown(len: nat, numCols: int): (n: nat)
    ensures n <= len && n <= TextBufferSize
    ensures numCols >= 0 ==> n <= numCols
    ensures n == len || n == numCols || n == TextBufferSize || (numCols < 0 && n == 0)
    ensures numCols < 0 ==> n == 0
  {
    var n := if len > numCols then numCols else len;
    var n := if n > TextBufferSize then TextBufferSize else n;
    if n < 0 then 0 else n
  }

  // ---------------------------------------------------------------------
  // The display and its procedures
  // ---------------------------------------------------------------------

  /** The state lcd_init allocates (struct lcd_ascii), with the bytes sent so far. */
  class Lcd {
    var backlight: bv8
    const displayFunc: bv8
    const displayCtrl: bv8
    const displayMode: bv8
    const numRows: int
    const numCols: int
    /** Every byte handed to the port expander, oldest first. */
    var sent: seq<bv8>

    /**
     * lcd_init: records the geometry, chooses the function-set flags and
     * runs the power-on sequence, which ends with the backlight on, the
     * display on without cursor, left-to-right entry and the cursor home.
     */
    constructor (rows: int, cols: int, dots: CharSize)
      ensures numRows == rows && numCols == cols
      ensures displayFunc == DisplayFunction(rows, dots)
      ensures backlight == BacklightOn
      ensures displayCtrl == DisplayOn | CursorOff | BlinkOff
      ensures displayMode == EntryLeft | EntryShiftDecrement
      ensures sent == InitSequence(displayFunc)
    {
      numRows, numCols := rows, cols;
      backlight := BacklightOff;
      displayFunc := DisplayFunction(rows, dots);
      displayCtrl := DisplayOn | CursorOff | BlinkOff;
      displayMode := EntryLeft | EntryShiftDecrement;
      sent := [];
      new;
      var err := WriteData(this, backlight);
      assert sent == [WireByte(BacklightOff, BacklightOff)];
      backlight := BacklightOn;
      err := Display(this, DisplayOn);
      err := WriteNibble(this, 0x30);
      err := WriteNibble(this, 0x30);
      err := WriteNibble(this, 0x30);
      err := WriteNibble(this, 0x20);
      err := Command(this, Instruction(FunctionSet, displayFunc));
      err := Clear(this);
      err := SetDisplayControl(this, displayCtrl);
      err := Clear(this);
      err := Command(this, Instruction(EntryModeSet, displayMode));
      err := Home(this);
    }
  }

  /** lcd_write_data: one byte, with the backlight bit ORed in. */
  method WriteData(lcd: Lcd?, val: bv8) returns (err: EspErr)
    modifies lcd
    ensures err == CheckArg(lcd)
    ensures lcd != null ==> lcd.backlight == old(lcd.backlight)
    ensures lcd != null ==> lcd.sent == old(lcd.sent) + [WireByte(val, lcd.backlight)]
  {
    if lcd == null {
      return InvalidArg;
    }
    lcd.sent := lcd.sent + [WireByte(val, lcd.backlight)];
    return Ok;
  }

  /** lcd_pulse_enable: `data` with ENABLE raised, then with ENABLE cleared. */
  method PulseEnable(lcd: Lcd?, data: bv8) returns (err: EspErr)
    modifies lcd
    ensures err == CheckArg(lcd)
    ensures lcd != null ==> lcd.backlight == old(lcd.backlight)
    ensures lcd != null ==> lcd.sent == old(lcd.sent) + PulseBytes(data, lcd.backlight)
  {
    if lcd == null {
      return InvalidArg;
    }
    err := WriteData(lcd, Raised(data));
    err := WriteData(lcd, Lowered(data));
    return Ok;
  }

  /** lcd_write_nibble: the nibble, then an enable pulse of it. */
  method WriteNibble(lcd: Lcd?, nib: bv8) returns (err: EspErr)
    modifies lcd
    ensures err == CheckArg(lcd)
    ensures lcd != null ==> lcd.backlight == old(lcd.backlight)
    ensures lcd != null ==> lcd.sent == old(lcd.sent) + NibbleBytes(nib, lcd.backlight)
  {
    if lcd == null {
      return InvalidArg;
    }
    err := WriteData(lcd, nib);
    err := PulseEnable(lcd, nib);
    return Ok;
  }

  /** lcd_send: one byte as four expander bytes built in a small array. */
  method Send(lcd: Lcd?, val: bv8, flags: bv8) returns (err: EspErr)
    modifies lcd
    ensures err == CheckArg(lcd)
    ensures lcd != null ==> lcd.backlight == old(lcd.backlight)
    ensures lcd != null ==> lcd.sent == old(lcd.sent) + Frames(val, flags, lcd.backlight)
  {
    if lcd == null {
      return InvalidArg;
    }
    var hiNib := HighNibble(val);
    var loNib := LowNibble(val);
    var arr := new bv8[4];
    arr[0] := FrameByte(hiNib, flags, lcd.backlight, EnableBit);
    arr[1] := FrameByte(hiNib, flags, lcd.backlight, 0);
    arr[2] := FrameByte(loNib, flags, lcd.backlight, EnableBit);
    arr[3] := FrameByte(loNib, flags, lcd.backlight, 0);
    lcd.sent := lcd.sent + arr[..];
    return Ok;
  }

  /** lcd_command: an instruction, sent with no flags (REGISTER SELECT low). */
  method Command(lcd: Lcd?, cmd: bv8) returns (err: EspErr)
    modifies lcd
    ensures err == CheckArg(lcd)
    ensures lcd != null ==> lcd.backlight == old(lcd.backlight)
    ensures lcd != null ==> lcd.sent == old(lcd.sent) + Frames(cmd, 0, lcd.backlight)
  {
    if lcd == null {
      return InvalidArg;
    }
    err := Send(lcd, cmd, 0);
  }

  /** lcd_clear. */
  method Clear(lcd: Lcd?) returns (err: EspErr)
    modifies lcd
    ensures err == CheckArg(lcd)
    ensures lcd != null ==> lcd.backlight == old(lcd.backlight)
    ensures lcd != null ==> lcd.sent == old(lcd.sent) + Frames(ClearDisplay, 0, lcd.backlight)
  {
    if lcd == null {
      return InvalidArg;
    }
    err := Command(lcd, ClearDisplay);
  }

  /** lcd_home. */
  method Home(lcd: Lcd?) returns (err: EspErr)
    modifies lcd
    ensures err == CheckArg(lcd)
    ensures lcd != null ==> lcd.backlight == old(lcd.backlight)
    ensures lcd != null ==> lcd.sent == old(lcd.sent) + Frames(ReturnHome, 0, lcd.backlight)
  {
    if lcd == null {
      return InvalidArg;
    }
    err := Command(lcd, ReturnHome);
  }

  /** lcd_display_control: the display-control instruction with the given flags. */
  method SetDisplayControl(lcd: Lcd?, ctrl: bv8) returns (err: EspErr)
    modifies lcd
    ensures err == CheckArg(lcd)
    ensures lcd != null ==> lcd.backlight == old(lcd.backlight)
    ensures lcd != null ==> lcd.sent == old(lcd.sent) + Frames(Instruction(DisplayControl, ctrl), 0, lcd.backlight)
  {
    if lcd == null {
      return InvalidArg;
    }
    err := Command(lcd, Instruction(DisplayControl, ctrl));
  }

  /**
   * lcd_display: the display-control instruction with the mode as its
   * flags; the result of the command is not passed on.
   */
  method Display(lcd: Lcd?, mode: bv8) returns (err: EspErr)
    modifies lcd
    ensures err == CheckArg(lcd)
    ensures lcd != null ==> lcd.backlight == old(lcd.backlight)
    ensures lcd != null ==> lcd.sent == old(lcd.sent) + Frames(Instruction(DisplayControl, mode), 0, lcd.backlight)
  {
    if lcd == null {
      return InvalidArg;
    }
    err := Command(lcd, Instruction(DisplayControl, mode));
    return Ok;
  }

  /**
   * lcd_backlight as written: the mode goes through lcd_write_data, which
   * ORs in the stored backlight bit, and the stored bit is not updated.
   */
  method BacklightAsWritten(lcd: Lcd?, mode: bv8) returns (err: EspErr)
    modifies lcd
    ensures err == CheckArg(lcd)
    ensures lcd != null ==> lcd.backlight == old(lcd.backlight)
    ensures lcd != null ==> lcd.sent == old(lcd.sent) + [WireByte(mode, lcd.backlight)]
  {
    if lcd == null {
      return InvalidArg;
    }
    err := WriteData(lcd, mode);
    return Ok;
  }

  /**
   * lcd_backlight corrected: the stored backlight bit becomes the mode, so
   * the byte written, like every later one, carries exactly that bit.
   */
  method Backlight(lcd: Lcd?, mode: bv8) returns (err: EspErr)
    modifies lcd
    ensures err == CheckArg(lcd)
    ensures lcd != null ==> lcd.backlight == mode && lcd.sent == old(lcd.sent) + [WireByte(mode, mode)]
  {
    if lcd == null {
      return InvalidArg;
    }
    lcd.backlight := mode;
    err := WriteData(lcd, mode);
    return Ok;
  }

  /**
   * lcd_cursor_pos as written: the Set DDRAM Address instruction for the
   * column and the row clamped only when it exceeds the row count. The row
   * table has four entries, so the row that comes out must be one of them.
   */
  method CursorPosAsWritten(lcd: Lcd?, col: Byte, row: Byte) returns (err: EspErr)
    requires lcd != null ==> ClampRowAsWritten(row, lcd.numRows) < |RowOffsets|
    modifies lcd
    ensures err == CheckArg(lcd)
    ensures lcd != null ==> lcd.backlight == old(lcd.backlight)
    ensures lcd != null ==>
      lcd.sent == old(lcd.sent) + Frames(CursorCommand(col, ClampRowAsWritten(row, lcd.numRows)), 0, lcd.backlight)
  {
    if lcd == null {
      return InvalidArg;
    }
    var rowOffsets := RowOffsets;
    var r := row;
    if r > lcd.numRows {
      r := (lcd.numRows - 1) % 256;
    }
    err := Command(lcd, Instruction(SetDdramAddr, ((col + rowOffsets[r]) % 256) as bv8));
  }

  /**
   * lcd_cursor_pos with the corrected row clamp: the Set DDRAM Address
   * instruction for the column and the clamped row. The row table has four
   * entries, so the clamped row must be one of them.
   */
  method CursorPos(lcd: Lcd?, col: Byte, row: Byte) returns (err: EspErr)
    requires lcd != null ==> ClampRow(row, lcd.numRows) < |RowOffsets|
    modifies lcd
    ensures err == CheckArg(lcd)
    ensures lcd != null ==> lcd.backlight == old(lcd.backlight)
    ensures lcd != null ==>
      lcd.sent == old(lcd.sent) + Frames(CursorCommand(col, ClampRow(row, lcd.numRows)), 0, lcd.backlight)
  {
    if lcd == null {
      return InvalidArg;
    }
    var rowOffsets := RowOffsets;
    var r := row;
    if r >= lcd.numRows {
      r := (lcd.numRows - 1) % 256;
    }
    err := Command(lcd, Instruction(SetDdramAddr, ((col + rowOffsets[r]) % 256) as bv8));
  }

  /**
   * lcd_printf over an already formatted buffer: the characters before the
   * first NUL, cut to the column count and to 16, each sent as data.
   */
  method Printf(lcd: Lcd?, buf: seq<bv8>) returns (err: EspErr)
    modifies lcd
    ensures err == CheckArg(lcd)
    ensures lcd != null ==> lcd.backlight == old(lcd.backlight)
    ensures lcd != null ==>
      lcd.sent == old(lcd.sent) + TextFrames(buf[..CharsShown(Strlen(buf), lcd.numCols)], lcd.backlight)
  {
    if lcd == null {
      return InvalidArg;
    }
    var len: int := Strlen(buf);
    if len > lcd.numCols {
      len := lcd.numCols;
    }
    if len > TextBufferSize {
      len := TextBufferSize;
    }
    ghost var start := lcd.sent;
    ghost var shown := CharsShown(Strlen(buf), lcd.numCols);
    assert shown == if len < 0 then 0 else len;
    var i := 0;
    while i < len
      invariant 0 <= i <= shown
      invariant lcd.sent == start + TextFrames(buf[..i], lcd.backlight)
      invariant lcd.backlight == old(lcd.backlight)
    {
      err := Send(lcd, buf[i], RegSelectBit);
      TextFramesExtend(buf, i, lcd.backlight);
      assert start + (TextFrames(buf[..i], lcd.backlight) + Frames(buf[i], RegSelectBit, lcd.backlight))
        == (start + TextFrames(buf[..i], lcd.backlight)) + Frames(buf[i], RegSelectBit, lcd.backlight);
      i := i + 1;
    }
    assert i == shown;
    return Ok;
  }

  /** lcd_cursor: only the argument check. */
  method Cursor(lcd: Lcd?, mode: CursorMode) returns (err: EspErr)
    ensures err == CheckArg(lcd)
  {
    if lcd == null {
      return InvalidArg;
    }
    return Ok;
  }

  /** lcd_scroll_display: only the argument check. */
  method ScrollDisplay(lcd: Lcd?, dir: ScrollDir) returns (err: EspErr)
    ensures err == CheckArg(lcd)
  {
    if lcd == null {
      return InvalidArg;
    }
    return Ok;
  }

  /** lcd_text_direction: only the argument check. */
  method TextDirection(lcd: Lcd?, dir: TextDir) returns (err: EspErr)
    ensures err == CheckArg(lcd)
  {
    if lcd == null {
      return InvalidArg;
    }
    return Ok;
  }

  /** lcd_shift_inc: only the argument check. */
  method ShiftInc(lcd: Lcd?) returns (err: EspErr)
    ensures err == CheckArg(lcd)
  {
    if lcd == null {
      return InvalidArg;
    }
    return Ok;
  }

  /** lcd_shift_dec: only the argument check. */
  method ShiftDec(lcd: Lcd?) returns (err: EspErr)
    ensures err == CheckArg(lcd)
  {
    if lcd == null {
      return InvalidArg;
    }
    return Ok;
  }

  /** lcd_create_char: only the argument check. */
  method CreateChar(lcd: Lcd?, loc: Byte, chars: seq<bv8>) returns (err: EspErr)
    ensures err == CheckArg(lcd)
  {
    if lcd == null {
      return InvalidArg;
    }
    return Ok;
  }

  // ---------------------------------------------------------------------
  // Properties
  // ---------------------------------------------------------------------

  /** The two nibbles of a byte put back together give the byte. */
  lemma NibblesRoundTrip(val: bv8)
    ensures HighNibble(val) | (LowNibble(val) >> 4) == val
  {
  }

  /**
   * Every byte lcd_write_data writes carries the stored backlight bits and,
   * outside them, exactly the bits of the value.
   */
  lemma WireByteCarriesBacklight(val: bv8, backlight: bv8)
    ensures WireByte(val, backlight) & backlight == backlight
    ensures WireByte(val, backlight) & !backlight == val & !backlight
  {
  }

  /**
   * The cursor instruction is a Set DDRAM Address instruction whose address
   * bits hold the DDRAM address of the position.
   */
  lemma CursorCommandAddress(col: Byte, row: int)
    requires col < 20 && 0 <= row < |RowOffsets|
    ensures CursorCommand(col, row) & SetDdramAddr != 0
    ensures CursorCommand(col, row) & 0x7F == DdramAddress(col, row) as bv8
  {
  }

  /**
   * An enable pulse raises ENABLE and then lowers it while every other line
   * stays as it was, provided the backlight bit does not itself raise ENABLE.
   */
  lemma PulseEnableLatches(data: bv8, backlight: bv8)
    requires backlight & EnableBit == 0
    ensures var p := PulseBytes(data, backlight);
      p[0] & EnableBit != 0 && p[1] & EnableBit == 0 && p[0] & !EnableBit == p[1] & !EnableBit
      && p[1] & !EnableBit == (data | backlight) & !EnableBit
  {
  }

  /**
   * Each nibble of a transfer is latched by a falling edge: it is first
   * put out with ENABLE raised and then repeated with ENABLE low (the
   * flags and backlight bits must not themselves raise ENABLE).
   */
  lemma FramesPulseEnable(val: bv8, flags: bv8, backlight: bv8)
    requires (flags | backlight) & EnableBit == 0
    ensures var f := Frames(val, flags, backlight);
      f[0] & EnableBit != 0 && f[1] & EnableBit == 0 && f[0] & !EnableBit == f[1] & !EnableBit
      && f[2] & EnableBit != 0 && f[3] & EnableBit == 0 && f[2] & !EnableBit == f[3] & !EnableBit
  {
  }

  /**
   * Every byte of a transfer carries the register-select, read/write and
   * backlight lines of `flags | backlight`: an instruction (flags 0) goes
   * to the instruction register, text (flags REGISTER SELECT) to the data
   * register, and neither is a read.
   */
  lemma FramesControlLines(val: bv8, flags: bv8, backlight: bv8)
    ensures var f := Frames(val, flags, backlight);
      forall i :: 0 <= i < 4 ==>
        (f[i] & RegSelectBit != 0 <==> (flags | backlight) & RegSelectBit != 0)
        && (f[i] & ReadWriteBit != 0 <==> (flags | backlight) & ReadWriteBit != 0)
        && (f[i] & BacklightOn != 0 <==> (flags | backlight) & BacklightOn != 0)
  {
  }

  /** Every byte of a transfer carries all of `flags | backlight`. */
  lemma FramesCarryFlags(val: bv8, flags: bv8, backlight: bv8)
    ensures var f, fl := Frames(val, flags, backlight), flags | backlight;
      f[0] & fl == fl && f[1] & fl == fl && f[2] & fl == fl && f[3] & fl == fl
  {
  }

  /**
   * The controller reassembles the byte sent, provided the flags and the
   * backlight bit stay off the data lines D7-D4.
   */
  lemma FramesRoundTrip(val: bv8, flags: bv8, backlight: bv8)
    requires (flags | backlight) & 0xF0 == 0
    ensures Unpack(Frames(val, flags, backlight)) == val
  {
  }

  /** Sending one more character appends its transfer to the text sent so far. */
  lemma TextFramesExtend(buf: seq<bv8>, i: nat, backlight: bv8)
    requires i < |buf|
    ensures TextFrames(buf[..i + 1], backlight) == TextFrames(buf[..i], backlight) + Frames(buf[i], RegSelectBit, backlight)
  {
    assert buf[..i + 1][..i] == buf[..i];
  }

  /** The transfers of a text are those of all but its last character, then that of the last. */
  lemma TextFramesSplit(s: seq<bv8>, backlight: bv8)
    requires |s| > 0
    ensures var f := TextFrames(s, backlight);
      f[..|f| - 4] == TextFrames(s[..|s| - 1], backlight)
      && f[|f| - 4..] == Frames(s[|s| - 1], RegSelectBit, backlight)
  {
  }

  /** Text sent with a backlight bit outside the data lines reaches the controller unchanged. */
  lemma {:induction false} TextRoundTrip(s: seq<bv8>, backlight: bv8)
    requires backlight & 0xF0 == 0
    ensures UnpackText(TextFrames(s, backlight)) == s
  {
    if |s| > 0 {
      var init, last := s[..|s| - 1], s[|s| - 1];
      TextFramesSplit(s, backlight);
      TextRoundTrip(init, backlight);
      FramesRoundTrip(last, RegSelectBit, backlight);
    }
  }

  /**
   * The power-on sequence switches to 4-bit mode, then hands the controller
   * the chosen function-set flags and ends with Return Home.
   */
  lemma InitSequenceCommands(displayFunc: bv8)
    ensures var s := InitSequence(displayFunc);
      |s| == 41
      && s[15] & 0xF0 == 0x20
      && Unpack(s[17..21]) == Instruction(FunctionSet, displayFunc)
      && Unpack(s[37..41]) == ReturnHome
  {
    var s := InitSequence(displayFunc);
    assert s[17..21] == Frames(Instruction(FunctionSet, displayFunc), 0, BacklightOn);
    assert s[37..41] == Frames(ReturnHome, 0, BacklightOn);
    FramesRoundTrip(Instruction(FunctionSet, displayFunc), 0, BacklightOn);
    FramesRoundTrip(ReturnHome, 0, BacklightOn);
  }

  /**
   * lcd_cursor_pos as written lets a row equal to the row count through:
   * row 4 of a four-row display indexes past the four row offsets, and
   * row 2 of a two-row display addresses a row the display does not have.
   */
  lemma ClampRowAsWrittenLetsRowCountThrough(numRows: Byte)
    ensures ClampRowAsWritten(numRows, numRows) == numRows
    ensures ClampRowAsWritten(4, 4) >= |RowOffsets|
    ensures ClampRowAsWritten(2, 2) >= 2
  {
  }

  /**
   * On a two-row display, column 0 of row 2 is sent as written to DDRAM
   * address 0x14 (the third row's offset, a row the display does not
   * have), and with the corrected clamp to 0x40, the start of the last row.
   */
  lemma CursorPosRowCountAsWritten()
    ensures CursorCommand(0, ClampRowAsWritten(2, 2)) == 0x94
    ensures CursorCommand(0, ClampRow(2, 2)) == 0xC0
  {
  }

  /**
   * With the corrected clamp every row of a display of one to four rows
   * lands on one of that display's rows, inside the row table.
   */
  lemma ClampRowInTable(row: Byte, numRows: int)
    requires 1 <= numRows <= |RowOffsets|
    ensures ClampRow(row, numRows) < numRows
    ensures ClampRow(row, numRows) < |RowOffsets|
  {
  }

  /**
   * lcd_backlight as written cannot switch the backlight off once it is
   * on: the byte it writes for the off mode still carries the backlight
   * bit, and so does every byte of every later transfer, since the stored
   * bit is unchanged.
   */
  lemma BacklightOffIgnoredAsWritten(val: bv8, flags: bv8)
    ensures WireByte(BacklightOff, BacklightOn) & BacklightOn != 0
    ensures forall i :: 0 <= i < 4 ==> Frames(val, flags, BacklightOn)[i] & BacklightOn != 0
  {
  }

  /**
   * With the corrected lcd_backlight, switching off clears the backlight
   * line in the byte written and in every byte of every later transfer
   * whose flags leave it clear.
   */
  lemma BacklightOffTakesEffect(val: bv8, flags: bv8)
    requires flags & BacklightOn == 0
    ensures WireByte(BacklightOff, BacklightOff) & BacklightOn == 0
    ensures forall i :: 0 <= i < 4 ==> Frames(val, flags, BacklightOff)[i] & BacklightOn == 0
  {
  }
}
