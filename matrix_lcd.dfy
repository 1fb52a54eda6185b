/**
 * The HD44780 character display behind a PCF8574 I2C expander, in 4-bit
 * mode.  Every byte for the controller goes out as two nibbles, and every
 * nibble as three I2C bytes: the nibble, the nibble with the enable line
 * raised, the nibble with it dropped.  The display is modelled by the bytes
 * it has been sent.
 */
module MatrixLcd {
  import opened CLib

  /**
   * The control bits and command codes of the display driver's constant
   * header, which are not part of this model: they are taken as given bytes.
   */
  datatype Codes = Codes(
    enable: bv8,
    backlight: bv8,
    setDdramAddr: bv8,
    lineOne: bv8,
    lineTwo: bv8,
    lineThree: bv8,
    lineFour: bv8,
    command: bv8,
    write: bv8,
    home: bv8,
    clear: bv8)

  const LCD_ROWS: nat := 2
  /** The index of the last row, LCD_ROWS - 1, as the byte the driver compares with. */
  const LAST_ROW: bv8 := 1

  /** The expander's control bits (enable, backlight, register select) all sit in the low nibble. */
  predicate LowControls(c: Codes)
  {
    c.enable < 0x10 && c.backlight < 0x10 && c.command < 0x10 && c.write < 0x10
  }

  /** lcdPulseEnable(data): data with the enable line raised, then with it dropped. */
  function Pulse(c: Codes, data: bv8): (r: seq<bv8>)
    ensures |r| == 2
  {
    [data | c.enable] + [data & !c.enable]
  }

  /** The bus byte of a nibble: its high four bits, the register-select mode and the backlight. */
  function NibbleData(c: Codes, nibble: bv8, mode: bv8): bv8
  {
    (nibble & 0xF0) | mode | c.backlight
  }

  /** lcdWriteNibble: the data byte, then the enable pulse around it. */
  function NibbleBytes(c: Codes, nibble: bv8, mode: bv8): (r: seq<bv8>)
    ensures |r| == 3
  {
    var b := NibbleData(c, nibble, mode);
    [b] + Pulse(c, b)
  }

  /** lcdWriteByte: the high nibble, then the low nibble, both in the given mode. */
  function ByteBytes(c: Codes, data: bv8, mode: bv8): (r: seq<bv8>)
    ensures |r| == 6
  {
    NibbleBytes(c, data & 0xF0, mode) + NibbleBytes(c, (data << 4) & 0xF0, mode)
  }

  /** The data byte a group of six bus bytes carries. */
  function DecodeByte(r: seq<bv8>): bv8
    requires |r| >= 6
  {
    (r[0] & 0xF0) | ((r[3] & 0xF0) >> 4)
  }

  /** With the control bits in the low nibble, a nibble's bus byte keeps the nibble on top and the controls below. */
  lemma NibbleDataSplit(c: Codes, nibble: bv8, mode: bv8)
    requires LowControls(c) && mode < 0x10
    ensures NibbleData(c, nibble, mode) & 0xF0 == nibble & 0xF0
    ensures NibbleData(c, nibble, mode) & 0x0F == mode | c.backlight
  {
  }

  lemma NibblesRejoin(data: bv8)
    ensures ((data & 0xF0) & 0xF0) | ((((data << 4) & 0xF0) & 0xF0) >> 4) == data
  {
  }

  /**
   * Every byte becomes six bus bytes: for each nibble the enable line is
   * raised on the second and dropped on the third; the high nibbles of the
   * first and fourth rebuild the byte, and the low bits carry mode and
   * backlight.
   */
  lemma ByteBytesDecode(c: Codes, data: bv8, mode: bv8)
    requires LowControls(c) && mode < 0x10
    ensures var r := ByteBytes(c, data, mode);
      && DecodeByte(r) == data
      && r[0] & 0x0F == mode | c.backlight && r[3] & 0x0F == mode | c.backlight
      && r[1] == r[0] | c.enable && r[2] == r[0] & !c.enable
      && r[4] == r[3] | c.enable && r[5] == r[3] & !c.enable
  {
    var hi, lo := data & 0xF0, (data << 4) & 0xF0;
    ByteBytesHigh(c, data, mode);
    ByteBytesLow(c, data, mode);
    NibbleDataSplit(c, hi, mode);
    NibbleDataSplit(c, lo, mode);
    NibblesRejoin(data);
  }

  lemma ByteBytesHigh(c: Codes, data: bv8, mode: bv8)
    ensures var r := ByteBytes(c, data, mode);
      r[0] == NibbleData(c, data & 0xF0, mode) && r[1] == r[0] | c.enable && r[2] == r[0] & !c.enable
  {
    var h := NibbleBytes(c, data & 0xF0, mode);
    NibbleBytesParts(c, data & 0xF0, mode);
    assert ByteBytes(c, data, mode)[..3] == h;
  }

  lemma ByteBytesLow(c: Codes, data: bv8, mode: bv8)
    ensures var r := ByteBytes(c, data, mode);
      r[3] == NibbleData(c, (data << 4) & 0xF0, mode) && r[4] == r[3] | c.enable && r[5] == r[3] & !c.enable
  {
    var l := NibbleBytes(c, (data << 4) & 0xF0, mode);
    NibbleBytesParts(c, (data << 4) & 0xF0, mode);
    assert ByteBytes(c, data, mode)[3..] == l;
  }

  lemma NibbleBytesParts(c: Codes, nibble: bv8, mode: bv8)
    ensures var r := NibbleBytes(c, nibble, mode);
      r[0] == NibbleData(c, nibble, mode) && r[1] == r[0] | c.enable && r[2] == r[0] & !c.enable
  {
  }

  /** The byte a character is sent as: its code, cut to eight bits. */
  function CharByte(ch: char): bv8
  {
    Byte(ch) as bv8
  }

  /** Character data: each character of a C string as a data byte, in order. */
  function TextBytes(c: Codes, t: string): (r: seq<bv8>)
    ensures |r| == 6 * |t|
    decreases |t|
  {
    if t == [] then [] else TextBytes(c, t[..|t| - 1]) + ByteBytes(c, CharByte(t[|t| - 1]), c.write)
  }

  lemma TextBytesStep(c: Codes, s: string, i: nat)
    requires i < |s|
    ensures TextBytes(c, s[..i + 1]) == TextBytes(c, s[..i]) + ByteBytes(c, CharByte(s[i]), c.write)
  {
    assert s[..i + 1][..i] == s[..i];
  }

  /** The characters can be read back from the bus bytes, six per character. */
  lemma {:induction false} TextBytesDecode(c: Codes, t: string, k: nat)
    requires LowControls(c) && k < |t|
    ensures DecodeByte(TextBytes(c, t)[6 * k..]) == CharByte(t[k])
    decreases |t|
  {
    var init := t[..|t| - 1];
    var last := ByteBytes(c, CharByte(t[|t| - 1]), c.write);
    assert TextBytes(c, t) == TextBytes(c, init) + last;
    if k == |t| - 1 {
      assert TextBytes(c, t)[6 * k..] == last;
      ByteBytesDecode(c, CharByte(t[k]), c.write);
    } else {
      TextBytesDecode(c, init, k);
      assert TextBytes(c, t)[6 * k..][..6] == TextBytes(c, init)[6 * k..][..6];
      assert init[k] == t[k];
    }
  }

  /** The row the cursor command addresses: rows past the last one are clamped to it. */
  function CursorRow(row: bv8): (r: bv8)
    ensures r <= LAST_ROW
    ensures row <= LAST_ROW ==> r == row
  {
    if row > LAST_ROW then LAST_ROW else row
  }

  /** The DDRAM address of the first column of a row. */
  function RowOffset(c: Codes, r: bv8): bv8
    requires r < 4
  {
    if r == 0 then c.lineOne else if r == 1 then c.lineTwo else if r == 2 then c.lineThree else c.lineFour
  }

  /** The command byte that puts the cursor at a column of a row, with 8-bit wrap-around of the address. */
  function RowCommand(c: Codes, col: bv8, r: bv8): bv8
    requires r < 4
  {
    c.setDdramAddr | (col + RowOffset(c, r))
  }

  /** The command byte of lcdSetCursor(col, row): the row clamped first. */
  function CursorCommand(c: Codes, col: bv8, row: bv8): bv8
  {
    RowCommand(c, col, CursorRow(row))
  }

  class Lcd {
    const codes: Codes
    var sent: seq<bv8>

    constructor(codes: Codes)
      ensures this.codes == codes && sent == []
    {
      this.codes := codes;
      sent := [];
    }

    /** lcdPulseEnable(data). */
    method PulseEnable(data: bv8)
      modifies this
      ensures sent == old(sent) + Pulse(codes, data)
    {
      var buf := data | codes.enable;
      sent := sent + [buf];
      ghost var raised := [buf];
      buf := data & !codes.enable;
      sent := sent + [buf];
      AppendAssoc(old(sent), raised, [buf]);
    }

    /** lcdWriteNibble(nibble, mode). */
    method WriteNibble(nibble: bv8, mode: bv8)
      modifies this
      ensures sent == old(sent) + NibbleBytes(codes, nibble, mode)
    {
      var data := NibbleData(codes, nibble, mode);
      sent := sent + [data];
      PulseEnable(data);
      AppendAssoc(old(sent), [data], Pulse(codes, data));
    }

    method WriteByte(data: bv8, mode: bv8)
      modifies this
      ensures sent == old(sent) + ByteBytes(codes, data, mode)
    {
      WriteNibble(data & 0xF0, mode);
      ghost var high := NibbleBytes(codes, data & 0xF0, mode);
      WriteNibble((data << 4) & 0xF0, mode);
      AppendAssoc(old(sent), high, NibbleBytes(codes, (data << 4) & 0xF0, mode));
    }

    /** lcdSetCursor(col, row): one command byte; a row past the last one is clamped to it. */
    method SetCursor(col: bv8, row: bv8)
      modifies this
      ensures sent == old(sent) + ByteBytes(codes, CursorCommand(codes, col, row), codes.command)
    {
      var r := CursorRow(row);
      var cmd := RowCommand(codes, col, r);
      WriteByte(cmd, codes.command);
    }

    method WriteChar(ch: char)
      modifies this
      ensures sent == old(sent) + ByteBytes(codes, CharByte(ch), codes.write)
    {
      WriteByte(CharByte(ch), codes.write);
    }

    /** lcdWriteStr(str): every character before the terminator, as data, in order. */
    method WriteStr(str: string)
      modifies this
      ensures sent == old(sent) + TextBytes(codes, CStr(str))
    {
      var i := 0;
      while i < |str| && str[i] != '\0'
        invariant 0 <= i <= CLen(str)
        invariant sent == old(sent) + TextBytes(codes, str[..i])
      {
        WriteChar(str[i]);
        TextBytesStep(codes, str, i);
        AppendAssoc(old(sent), TextBytes(codes, str[..i]), ByteBytes(codes, CharByte(str[i]), codes.write));
        i := i + 1;
      }
      assert str[..i] == CStr(str);
    }

    method Home()
      modifies this
      ensures sent == old(sent) + ByteBytes(codes, codes.home, codes.command)
    {
      WriteByte(codes.home, codes.command);
    }

    method ClearScreen()
      modifies this
      ensures sent == old(sent) + ByteBytes(codes, codes.clear, codes.command)
    {
      WriteByte(codes.clear, codes.command);
    }
  }
}
