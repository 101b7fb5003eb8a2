/**
 * The host-side helper layer that drives the controller over its bus.
 * The controller itself is an oracle: the byte it answers to a read is a
 * function of everything sent over the bus so far and of the RS pin.
 */
module Interface {
  import DisplayData
  import Controller

  /** The DDRAM address at which the second display line starts. */
  const SecondLineStartAddress: byte := 64

  /** C#'s byte, for the host side's arithmetic; wrap-around is written out where it happens. */
  newtype byte = x: int | 0 <= x < 256

  /** Bit `k` of a byte. */
  function Bit(b: byte, k: nat): bool
    requires k < 8
  {
    var p := if k == 0 then 1 else if k == 1 then 2 else if k == 2 then 4 else if k == 3 then 8
             else if k == 4 then 16 else if k == 5 then 32 else if k == 6 then 64 else 128;
    b as int / p % 2 == 1
  }

  datatype Position = Position(line: byte, offset: byte)

  datatype Size = Size(width: byte, height: byte)

  /**
   * Sizes the command line lets a user choose: 1 to 4 lines of 1 to 40
   * characters, at most 80 characters in all.
   */
  predicate SupportedSize(size: Size)
  {
    1 <= size.height <= 4 && 1 <= size.width <= 40
    && (size.width as int) * (size.height as int) <= 80
  }

  /** One bus transaction, or a change of the backlight pin. */
  datatype Event =
    | Transmit(rs: bool, data: byte)
    | Receive(rs: bool, data: byte)
    | SetBacklight(on: bool)

  /** The controller's answer to a read, given the bus history and the RS pin. */
  type Device = (seq<Event>, bool) -> byte

  // ---------------------------------------------------------------------
  // Instruction encoders (bits that do not overlap are OR-ed by adding them)

  const ClearInstruction: byte := 0x01
  const HomeInstruction: byte := 0x02

  /** Function Set for an 8-bit bus; `lines` picks two lines, `font` the 5x11 font. */
  function FunctionSetInstruction(lines: bool, font: bool): (r: byte)
    ensures r / 16 == 3
    ensures Bit(r, 3) == lines && Bit(r, 2) == font
    ensures r % 4 == 0
  {
    0x30 + (if lines then 0x08 else 0) + (if font then 0x04 else 0)
  }

  /** Display Control with its display, cursor and blink enable bits. */
  function DisplayControlInstruction(display: bool, cursor: bool, blink: bool): (r: byte)
    ensures r / 8 == 1
    ensures Bit(r, 2) == display && Bit(r, 1) == cursor && Bit(r, 0) == blink
  {
    0x08 + (if display then 0x04 else 0) + (if cursor then 0x02 else 0) + (if blink then 0x01 else 0)
  }

  /** Cursor/Display Shift; `screen` shifts the display, `right` picks the direction. */
  function ShiftInstruction(screen: bool, right: bool): (r: byte)
    ensures r / 16 == 1
    ensures Bit(r, 3) == screen && Bit(r, 2) == right
    ensures r % 4 == 0
  {
    0x10 + (if screen then 0x08 else 0) + (if right then 0x04 else 0)
  }

  /** Set DDRAM Address, `0x80 | address`: bit 7 set, the address in the low 7 bits. */
  function SetDDRAMAddressInstruction(address: byte): (r: byte)
    ensures Bit(r, 7)
    ensures r % 128 == address % 128
  {
    if address >= 0x80 then address else address + 0x80
  }

  /** Set CGRAM Address, `0x40 | address`: bit 6 set, the low 6 bits and bit 7 kept from the address. */
  function SetCGRAMAddressInstruction(address: byte): (r: byte)
    ensures Bit(r, 6)
    ensures r % 64 == address % 64
    ensures Bit(r, 7) == Bit(address, 7)
  {
    if address / 64 % 2 == 1 then address else address + 0x40
  }

  /** Distinct flag choices give distinct instructions, and no two of the three flag encoders share an instruction. */
  lemma EncodersInjective(l1: bool, f1: bool, b1: bool, l2: bool, f2: bool, b2: bool)
    ensures FunctionSetInstruction(l1, f1) == FunctionSetInstruction(l2, f2) <==> l1 == l2 && f1 == f2
    ensures ShiftInstruction(l1, f1) == ShiftInstruction(l2, f2) <==> l1 == l2 && f1 == f2
    ensures DisplayControlInstruction(l1, f1, b1) == DisplayControlInstruction(l2, f2, b2) <==> l1 == l2 && f1 == f2 && b1 == b2
    ensures FunctionSetInstruction(l1, f1) != ShiftInstruction(l2, f2)
    ensures FunctionSetInstruction(l1, f1) != DisplayControlInstruction(l2, f2, b2)
    ensures ShiftInstruction(l1, f1) != DisplayControlInstruction(l2, f2, b2)
  {
  }

  // ---------------------------------------------------------------------
  // Status byte

  /** The busy flag: bit 7 of the status read. */
  function StatusBusy(status: byte): (busy: bool)
    ensures busy == Bit(status, 7)
  {
    status >= 0x80
  }

  /** The address counter: the low 7 bits of the status read. */
  function StatusAddress(status: byte): (a: byte)
    ensures a < 128
    ensures a as int == status as int % 128
  {
    status % 0x80
  }

  /** The busy flag and the address together give back the status byte. */
  lemma StatusRoundTrip(status: byte)
    ensures status == (if StatusBusy(status) then 0x80 else 0) + StatusAddress(status)
  {
  }

  // ---------------------------------------------------------------------
  // Cursor position <-> DDRAM address

  /** The position GetCursorPosition reports for an address. */
  function PositionOf(size: Size, address: byte): (p: Position)
    requires size.width != 0
    ensures p.offset < size.width
    ensures p.line < 4
    ensures (p.line % 2 == 1) == (address >= SecondLineStartAddress)
    ensures (p.line >= 2) == (address % SecondLineStartAddress >= size.width)
    ensures p.offset as int == (address as int % 64) % size.width as int
  {
    var modSecondLine := address % SecondLineStartAddress;
    var line: byte :=
      if modSecondLine >= size.width then (if address >= SecondLineStartAddress then 3 else 2)
      else (if address >= SecondLineStartAddress then 1 else 0);
    Position(line, modSecondLine % size.width)
  }

  /** The DDRAM address SetCursorPosition sends, in byte arithmetic. */
  function CursorAddress(size: Size, position: Position): (a: byte)
    ensures a as int == (position.offset as int + (if position.line % 2 == 1 then 64 else 0)
      + (if position.line >= 2 then size.width as int else 0)) % 256
  {
    var offset := if position.line % 2 != 0 then (position.offset as int + SecondLineStartAddress as int) % 256 else position.offset as int;
    ModSum(position.offset as int + (if position.line % 2 != 0 then SecondLineStartAddress as int else 0), size.width as int);
    (if position.line >= 2 then (offset + size.width as int) % 256 else offset) as byte
  }

  /** A byte wrap-around in the middle of a sum changes nothing at the end. */
  lemma ModSum(x: nat, y: nat)
    ensures (x % 256 + y) % 256 == (x + y) % 256
  {
    var q := x / 256;
    assert x == q * 256 + x % 256;
    assert x + y == (x % 256 + y) + q * 256;
  }

  /** Without wrap-around: the offset, plus 64 on odd lines, plus a width on lines 2 and 3. */
  lemma CursorAddressOf(size: Size, position: Position)
    requires size.width <= 40 && position.offset < size.width && position.line < 4
    ensures CursorAddress(size, position) as int == position.offset as int
      + (if position.line % 2 == 1 then 64 else 0) + (if position.line >= 2 then size.width as int else 0)
  {
  }

  lemma ModOfShifted(o: int, w: int)
    requires 0 <= o < w
    ensures (o + w) % w == o && o % w == o
  {
  }

  /** For the sizes the command line allows, reading back the address of a position gives the position. */
  lemma CursorRoundTrip(size: Size, position: Position)
    requires SupportedSize(size)
    requires position.line < size.height && position.offset < size.width
    ensures CursorAddress(size, position) < 128
    ensures PositionOf(size, CursorAddress(size, position)) == position
  {
    var w, o := size.width as int, position.offset as int;
    ModOfShifted(o, w);
    if position.line >= 2 {
      assert w <= 26 by {
        if size.height == 3 { assert w * 3 <= 80; } else { assert w * 4 <= 80; }
      }
      assert position.line == 3 ==> w <= 20 by {
        if position.line == 3 { assert size.height == 4 && w * 4 <= 80; }
      }
      CursorRoundTripLower(size, position);
    } else {
      CursorRoundTripUpper(size, position);
    }
  }

  /** Lines 0 and 1: the offset, on the first or the second DDRAM line. */
  lemma CursorRoundTripUpper(size: Size, position: Position)
    requires 0 < size.width <= 40 && position.line < 2 && position.offset < size.width
    ensures CursorAddress(size, position) < 128
    ensures PositionOf(size, CursorAddress(size, position)) == position
  {
    var w, o := size.width as int, position.offset as int;
    ModOfShifted(o, w);
    CursorAddressOf(size, position);
    var a := CursorAddress(size, position) as int;
    assert a % 64 == o;
  }

  /** Lines 2 and 3: one width on from lines 0 and 1. */
  lemma CursorRoundTripLower(size: Size, position: Position)
    requires 0 < size.width <= 26 && 2 <= position.line < 4 && position.offset < size.width
    requires position.line == 3 ==> size.width <= 20
    ensures CursorAddress(size, position) < 128
    ensures PositionOf(size, CursorAddress(size, position)) == position
  {
    var w, o := size.width as int, position.offset as int;
    ModOfShifted(o, w);
    CursorAddressOf(size, position);
    var a := CursorAddress(size, position) as int;
    assert a % 64 == o + w;
  }

  /** On the default 16 by 2 display, and any narrower two-line one, every position is a valid DDRAM address. */
  lemma CursorAddressValid(size: Size, position: Position)
    requires size.height <= 2 && size.width <= 16
    requires position.line < size.height && position.offset < size.width
    ensures DisplayData.ValidAddress(CursorAddress(size, position) as int as bv8)
  {
    CursorAddressOf(size, position);
  }

  /**
   * With the DDRAM bound as intended (second line 64..103), every position of
   * a supported size has a valid address, except on three lines wider than
   * 20, whose third line runs into the gap.
   */
  lemma CursorAddressIntendedValid(size: Size, position: Position)
    requires SupportedSize(size) && (size.height != 3 || size.width <= 20)
    requires position.line < size.height && position.offset < size.width
    ensures DisplayData.IntendedValidAddress(CursorAddress(size, position) as int as bv8)
  {
    if position.line >= 2 {
      assert size.width <= 20 by {
        if size.height == 4 { assert size.width as int * 4 <= 80; }
      }
    }
    CursorAddressOf(size, position);
    var a := CursorAddress(size, position) as int;
    assert a < 40 || 64 <= a < 104;
  }

  /**
   * Three lines of 26 characters pass the size check, but their third line
   * reaches into the DDRAM gap: the controller moves address 40 to 64, which
   * reads back as the second line.
   */
  lemma ThreeLineCursorInGap()
    ensures var size := Size(26, 3);
      && SupportedSize(size)
      && CursorAddress(size, Position(2, 14)) == 40
      && !DisplayData.ValidAddress(40)
      && Controller.Normalize(40, false, true) == 64
      && PositionOf(size, 64) == Position(1, 0)
  {
  }

  // ---------------------------------------------------------------------
  // Character translation

  /** Read turns custom-character codes 0..7 into the characters 1..8. */
  function ReadChar(data: byte): (c: char)
    ensures data <= 7 ==> c as int == data as int + 1
    ensures data > 7 ==> c as int == data as int
    ensures c != '\0'
  {
    if data <= 7 then (data as int + 1) as char else data as int as char
  }

  /** The characters Read produces for a sequence of bytes. */
  function ReadChars(data: seq<byte>): (s: string)
    ensures |s| == |data|
  {
    if data == [] then "" else [ReadChar(data[0])] + ReadChars(data[1..])
  }

  lemma ReadCharsAt(data: seq<byte>, i: nat)
    requires i < |data|
    ensures ReadChars(data)[i] == ReadChar(data[i])
  {
    if i > 0 {
      ReadCharsAt(data[1..], i - 1);
    }
  }

  /** Write turns the characters 1..8 into the custom-character codes 0..7. */
  function CustomToCode(c: char): (d: char)
    ensures '\U{1}' <= c <= '\U{8}' ==> d as int == c as int - 1
    ensures !('\U{1}' <= c <= '\U{8}') ==> d == c
    ensures d == '\n' <==> c == '\n'
  {
    if '\U{1}' <= c <= '\U{8}' then (c as int - 1) as char else c
  }

  /** The `(byte)c` conversion: the low 8 bits of the character's code. */
  function CharByte(c: char): (b: byte)
    ensures b as int == c as int % 256
  {
    (c as int % 256) as byte
  }

  /** Custom characters survive a Write followed by a Read. */
  lemma CustomCharRoundTrip(c: char)
    requires '\U{1}' <= c <= '\U{8}'
    ensures ReadChar(CharByte(CustomToCode(c))) == c
  {
  }

  /** The data bytes Write transmits for a message: one per character other than a newline. */
  function WireBytes(message: string): (r: seq<byte>)
    ensures |r| <= |message|
  {
    if message == [] then []
    else (if message[0] == '\n' then [] else [CharByte(CustomToCode(message[0]))]) + WireBytes(message[1..])
  }

  /** The data bytes of the data transmissions in a stretch of bus history. */
  function DataSent(events: seq<Event>): seq<byte>
  {
    if events == [] then []
    else (if events[0].Transmit? && events[0].rs then [events[0].data] else []) + DataSent(events[1..])
  }

  /** The data bytes of the data reads in a stretch of bus history. */
  function DataReceived(events: seq<Event>): seq<byte>
  {
    if events == [] then []
    else (if events[0].Receive? && events[0].rs then [events[0].data] else []) + DataReceived(events[1..])
  }

  lemma {:induction false} DataSentAppend(a: seq<Event>, b: seq<Event>)
    ensures DataSent(a + b) == DataSent(a) + DataSent(b)
  {
    if a == [] {
      assert a + b == b;
    } else {
      assert (a + b)[0] == a[0];
      assert (a + b)[1..] == a[1..] + b;
      DataSentAppend(a[1..], b);
      var h := if a[0].Transmit? && a[0].rs then [a[0].data] else [];
      assert DataSent(a + b) == h + (DataSent(a[1..]) + DataSent(b));
      assert h + (DataSent(a[1..]) + DataSent(b)) == (h + DataSent(a[1..])) + DataSent(b);
    }
  }

  lemma {:induction false} DataReceivedAppend(a: seq<Event>, b: seq<Event>)
    ensures DataReceived(a + b) == DataReceived(a) + DataReceived(b)
  {
    if a == [] {
      assert a + b == b;
    } else {
      assert (a + b)[0] == a[0];
      assert (a + b)[1..] == a[1..] + b;
      DataReceivedAppend(a[1..], b);
      var h := if a[0].Receive? && a[0].rs then [a[0].data] else [];
      assert DataReceived(a + b) == h + (DataReceived(a[1..]) + DataReceived(b));
      assert h + (DataReceived(a[1..]) + DataReceived(b)) == (h + DataReceived(a[1..])) + DataReceived(b);
    }
  }

  // ---------------------------------------------------------------------
  // Reading data bytes

  /** The data reads of a sequence of bytes. */
  function Receives(data: seq<byte>): (e: seq<Event>)
    ensures |e| == |data|
  {
    seq(|data|, i requires 0 <= i < |data| => Receive(true, data[i]))
  }

  lemma {:induction false} DataReceivedOfReceives(data: seq<byte>)
    ensures DataReceived(Receives(data)) == data
    ensures DataSent(Receives(data)) == []
  {
    if data != [] {
      assert Receives(data)[1..] == Receives(data[1..]);
      DataReceivedOfReceives(data[1..]);
    }
  }

  /** `count` consecutive data reads from `history` on: the bytes read and the history after. */
  function ReceiveMany(device: Device, history: seq<Event>, count: nat): (seq<byte>, seq<Event>)
    decreases count
  {
    if count == 0 then ([], history)
    else
      var b := device(history, true);
      var rest := ReceiveMany(device, history + [Receive(true, b)], count - 1);
      ([b] + rest.0, rest.1)
  }

  /** ReceiveMany reads `count` bytes, each one answered by the device, and adds one read per byte. */
  lemma {:induction false} ReceiveManyShape(device: Device, history: seq<Event>, count: nat)
    decreases count
    ensures |ReceiveMany(device, history, count).0| == count
    ensures ReceiveMany(device, history, count).1 == history + Receives(ReceiveMany(device, history, count).0)
    ensures count > 0 ==> ReceiveMany(device, history, count).0[0] == device(history, true)
  {
    if count > 0 {
      var b := device(history, true);
      var h1 := history + [Receive(true, b)];
      ReceiveManyShape(device, h1, count - 1);
      var bs := ReceiveMany(device, h1, count - 1).0;
      assert Receives([b] + bs) == [Receive(true, b)] + Receives(bs);
    }
  }

  // ---------------------------------------------------------------------
  // Read

  /**
   * Lines `line` .. height-1 of Read: for each line, move the cursor to its
   * start and read `width` data bytes. Gives the text and the history after.
   */
  function ReadScreen(device: Device, size: Size, history: seq<Event>, line: nat): (r: (string, seq<Event>))
    decreases size.height as int - line
  {
    if line >= size.height as nat then ("", history)
    else
      var h1 := history + [Transmit(false, SetDDRAMAddressInstruction(CursorAddress(size, Position(line as byte, 0))))];
      var data := ReceiveMany(device, h1, size.width as nat);
      var rest := ReadScreen(device, size, data.1, line + 1);
      (ReadChars(data.0) + "\n" + rest.0, rest.1)
  }

  /** The text Read makes of the bytes it reads: `width` characters and a newline per line. */
  function ReadText(width: nat, data: seq<byte>): (s: string)
    requires width > 0
    decreases |data|
  {
    if |data| < width then "" else ReadChars(data[..width]) + "\n" + ReadText(width, data[width..])
  }

  lemma {:induction false} ReadTextLength(width: nat, lines: nat, data: seq<byte>)
    requires width > 0 && |data| == lines * width
    ensures |ReadText(width, data)| == lines * (width + 1)
    decreases lines
  {
    if lines > 0 {
      assert lines * width == (lines - 1) * width + width;
      ReadTextLength(width, lines - 1, data[width..]);
      assert lines * (width + 1) == (lines - 1) * (width + 1) + (width + 1);
    }
  }

  lemma LineIndexStep(y: nat, x: nat, width: nat)
    requires y > 0
    ensures y * (width + 1) + x == (width + 1) + ((y - 1) * (width + 1) + x)
    ensures y * width + x == width + ((y - 1) * width + x)
    ensures (y - 1) * (width + 1) >= 0 && (y - 1) * width >= 0
  {
  }

  lemma {:induction false} LineIndexInRange(y: nat, x: nat, lines: nat, width: nat)
    requires y < lines && x <= width
    ensures y * (width + 1) + x < lines * (width + 1)
    ensures x < width ==> y * width + x < lines * width
  {
    var d := lines - (y + 1);
    assert lines * (width + 1) == (y + 1) * (width + 1) + d * (width + 1);
    assert lines * width == (y + 1) * width + d * width;
    assert d * (width + 1) >= 0 && d * width >= 0;
  }

  /** Past the first line and its newline, a ReadText continues with the ReadText of the rest. */
  lemma ReadTextShift(width: nat, data: seq<byte>, k: nat)
    requires width > 0 && |data| >= width
    requires k < |ReadText(width, data[width..])|
    ensures |ReadText(width, data)| > width + 1 + k
    ensures ReadText(width, data)[width + 1 + k] == ReadText(width, data[width..])[k]
  {
    ReadTextUnfold(width, data);
    LineBreakIndex(ReadChars(data[..width]), ReadText(width, data[width..]), k);
  }

  /** A ReadText of at least one line: that line's characters, a newline, then the rest. */
  lemma ReadTextUnfold(width: nat, data: seq<byte>)
    requires width > 0 && |data| >= width
    ensures |ReadChars(data[..width])| == width
    ensures ReadText(width, data) == ReadChars(data[..width]) + "\n" + ReadText(width, data[width..])
  {
  }

  lemma LineBreakIndex(head: string, tail: string, k: nat)
    requires k < |tail|
    ensures |head + "\n" + tail| > |head| + 1 + k
    ensures (head + "\n" + tail)[|head| + 1 + k] == tail[k]
  {
  }

  /** The first line of a ReadText: the first `width` bytes' characters, then a newline. */
  lemma ReadTextFirstLine(width: nat, data: seq<byte>, x: nat)
    requires width > 0 && |data| >= width && x <= width
    ensures |ReadText(width, data)| > x
    ensures x == width ==> ReadText(width, data)[x] == '\n'
    ensures x < width ==> ReadText(width, data)[x] == ReadChar(data[x])
  {
    assert ReadText(width, data) == ReadChars(data[..width]) + "\n" + ReadText(width, data[width..]);
    if x < width {
      ReadCharsAt(data[..width], x);
    }
  }

  /**
   * Layout of ReadText: character x of line y shows byte y * width + x, and
   * each line ends with a newline.
   */
  lemma ReadTextAt(width: nat, lines: nat, data: seq<byte>, y: nat, x: nat)
    requires width > 0 && |data| == lines * width
    requires y < lines && x <= width
    ensures |ReadText(width, data)| == lines * (width + 1)
    ensures y * (width + 1) + x < lines * (width + 1)
    ensures x < width ==> y * width + x < lines * width
    ensures x == width ==> ReadText(width, data)[y * (width + 1) + x] == '\n'
    ensures x < width ==> ReadText(width, data)[y * (width + 1) + x] == ReadChar(data[y * width + x])
  {
    ReadTextLength(width, lines, data);
    LineIndexInRange(y, x, lines, width);
    ReadTextIndex(width, lines, data, y, x, y * (width + 1) + x, y * width + x);
  }

  /** ReadTextAt with the text index k and the data index j named, line by line. */
  lemma {:induction false} ReadTextIndex(width: nat, lines: nat, data: seq<byte>, y: nat, x: nat, k: nat, j: nat)
    requires width > 0 && |data| == lines * width && y < lines && x <= width
    requires k == y * (width + 1) + x && j == y * width + x
    requires k < |ReadText(width, data)| && (x < width ==> j < |data|)
    ensures x == width ==> ReadText(width, data)[k] == '\n'
    ensures x < width ==> ReadText(width, data)[k] == ReadChar(data[j])
    decreases lines, 1
  {
    if y == 0 {
      ReadTextFirstLine(width, data, x);
    } else {
      ReadTextIndexLater(width, lines, data, y, x, k, j);
    }
  }

  lemma {:induction false} ReadTextIndexLater(width: nat, lines: nat, data: seq<byte>, y: nat, x: nat, k: nat, j: nat)
    requires width > 0 && |data| == lines * width && 0 < y < lines && x <= width
    requires k == y * (width + 1) + x && j == y * width + x
    requires k < |ReadText(width, data)| && (x < width ==> j < |data|)
    ensures x == width ==> ReadText(width, data)[k] == '\n'
    ensures x < width ==> ReadText(width, data)[k] == ReadChar(data[j])
    decreases lines, 0
  {
    var rest := data[width..];
    RestLines(width, lines, data);
    LineIndexStep(y, x, width);
    var k1 := (y - 1) * (width + 1) + x;
    var j1 := (y - 1) * width + x;
    assert k == width + 1 + k1 && j == width + j1;
    ReadTextLength(width, lines - 1, rest);
    LineIndexInRange(y - 1, x, lines - 1, width);
    ReadTextIndex(width, lines - 1, rest, y - 1, x, k1, j1);
    ReadTextShift(width, data, k1);
  }

  lemma RestLines(width: nat, lines: nat, data: seq<byte>)
    requires lines > 0 && |data| == lines * width
    ensures |data| >= width && |data[width..]| == (lines - 1) * width
  {
    assert lines * width == (lines - 1) * width + width;
  }

  /** The text ReadScreen returns is the ReadText of the bytes it receives. */
  lemma {:induction false} ReadScreenText(device: Device, size: Size, history: seq<Event>, line: nat)
    requires size.width != 0 && line <= size.height as nat
    ensures var r := ReadScreen(device, size, history, line);
      && |history| <= |r.1| && r.1[..|history|] == history
      && r.0 == ReadText(size.width as nat, DataReceived(r.1[|history|..]))
    decreases size.height as int - line
  {
    var r := ReadScreen(device, size, history, line);
    if line == size.height as nat {
      assert r.1[|history|..] == [];
    } else {
      var w := size.width as nat;
      var e := Transmit(false, SetDDRAMAddressInstruction(CursorAddress(size, Position(line as byte, 0))));
      var data := ReceiveMany(device, history + [e], w);
      var rest := ReadScreen(device, size, data.1, line + 1);
      ReadScreenUnfold(device, size, history, line);
      ReceiveManyShape(device, history + [e], w);
      ReadScreenText(device, size, data.1, line + 1);
      ReadScreenStep(history, e, data.0, data.1, rest.1, rest.1[|data.1|..]);
      ReadTextCons(w, data.0, DataReceived(rest.1[|data.1|..]));
    }
  }

  /** ReadScreen receives `width` bytes for every line from `line` on. */
  lemma {:induction false} ReadScreenCount(device: Device, size: Size, history: seq<Event>, line: nat)
    requires line <= size.height as nat
    ensures |DataReceived(ReadScreen(device, size, history, line).1)|
      == |DataReceived(history)| + LinesBytes(size.height as nat - line, size.width as nat)
    decreases size.height as int - line
  {
    if line < size.height as nat {
      var w := size.width as nat;
      var e := Transmit(false, SetDDRAMAddressInstruction(CursorAddress(size, Position(line as byte, 0))));
      var data := ReceiveMany(device, history + [e], w);
      ReadScreenCount(device, size, data.1, line + 1);
      ReadScreenUnfold(device, size, history, line);
      ReceiveManyShape(device, history + [e], w);
      ReceivedCount(history, e, data.0);
      assert size.height as nat - line == (size.height as nat - (line + 1)) + 1;
    }
  }

  /** ReadScreen gives `width` characters and a newline for every line from `line` on. */
  lemma {:induction false} ReadScreenLength(device: Device, size: Size, history: seq<Event>, line: nat)
    requires line <= size.height as nat
    ensures |ReadScreen(device, size, history, line).0| == LinesBytes(size.height as nat - line, size.width as nat + 1)
    decreases size.height as int - line
  {
    if line < size.height as nat {
      var w := size.width as nat;
      var e := Transmit(false, SetDDRAMAddressInstruction(CursorAddress(size, Position(line as byte, 0))));
      var data := ReceiveMany(device, history + [e], w);
      ReadScreenLength(device, size, data.1, line + 1);
      ReadScreenUnfold(device, size, history, line);
      ReceiveManyShape(device, history + [e], w);
      assert size.height as nat - line == (size.height as nat - (line + 1)) + 1;
    }
  }

  /** The text Read returns has height * (width + 1) characters. */
  lemma ReadLength(device: Device, size: Size, history: seq<Event>)
    ensures |ReadScreen(device, size, history, 0).0| == size.height as int * (size.width as int + 1)
  {
    ReadScreenLength(device, size, history, 0);
    LinesBytesProduct(size.height as nat, size.width as nat + 1);
  }

  /** One line of ReadScreen: move to the line's start, read `width` bytes, then read the lines after it. */
  lemma ReadScreenUnfold(device: Device, size: Size, history: seq<Event>, line: nat)
    requires line < size.height as nat
    ensures var e := Transmit(false, SetDDRAMAddressInstruction(CursorAddress(size, Position(line as byte, 0))));
      var data := ReceiveMany(device, history + [e], size.width as nat);
      var rest := ReadScreen(device, size, data.1, line + 1);
      ReadScreen(device, size, history, line) == (ReadChars(data.0) + "\n" + rest.0, rest.1)
  {
  }

  /** One pass of Read's outer loop keeps the text read so far a prefix of the whole screen. */
  lemma ReadLineStep(device: Device, size: Size, before: seq<Event>, y: nat, data: seq<byte>, after: seq<Event>,
                     text: string, screen: (string, seq<Event>))
    requires y < size.height as nat
    requires (data, after) == ReceiveMany(device, before + [Transmit(false, SetDDRAMAddressInstruction(CursorAddress(size, Position(y as byte, 0))))], size.width as nat)
    requires text + ReadScreen(device, size, before, y).0 == screen.0
    requires ReadScreen(device, size, before, y).1 == screen.1
    ensures (text + ReadChars(data) + "\n") + ReadScreen(device, size, after, y + 1).0 == screen.0
    ensures ReadScreen(device, size, after, y + 1).1 == screen.1
  {
    ReadScreenUnfold(device, size, before, y);
    var next := ReadScreen(device, size, after, y + 1);
    assert text + ReadChars(data) + "\n" + next.0 == text + (ReadChars(data) + "\n" + next.0);
  }

  /** An instruction followed by reads of `data` adds exactly `data` to what was received. */
  lemma ReceivedCount(history: seq<Event>, e: Event, data: seq<byte>)
    requires e.Transmit?
    ensures |DataReceived(history + [e] + Receives(data))| == |DataReceived(history)| + |data|
  {
    DataReceivedAppend(history + [e], Receives(data));
    DataReceivedAppend(history, [e]);
    DataReceivedOfReceives(data);
    assert DataReceived([e]) == [];
  }

  /** The number of bytes in `n` lines of `w` bytes, counted line by line. */
  function LinesBytes(n: nat, w: nat): (total: nat)
  {
    if n == 0 then 0 else w + LinesBytes(n - 1, w)
  }

  lemma {:induction false} LinesBytesProduct(n: nat, w: nat)
    ensures LinesBytes(n, w) == n * w
  {
    if n > 0 {
      LinesBytesProduct(n - 1, w);
    }
  }

  /** A ReadText of one line of bytes followed by more. */
  lemma ReadTextCons(width: nat, line: seq<byte>, more: seq<byte>)
    requires width > 0 && |line| == width
    ensures ReadText(width, line + more) == ReadChars(line) + "\n" + ReadText(width, more)
  {
    assert (line + more)[..width] == line && (line + more)[width..] == more;
  }

  /** One line of ReadScreen: a cursor move, then data reads only. */
  lemma ReadScreenStep(history: seq<Event>, e: Event, data: seq<byte>, h2: seq<Event>, h3: seq<Event>, tail: seq<Event>)
    requires e.Transmit?
    requires h2 == history + [e] + Receives(data)
    requires |h2| <= |h3| && h3[..|h2|] == h2 && tail == h3[|h2|..]
    ensures |history| <= |h3| && h3[..|history|] == history
    ensures DataReceived(h3[|history|..]) == data + DataReceived(tail)
  {
    assert h3 == h2 + tail;
    assert h3[|history|..] == [e] + Receives(data) + tail;
    DataReceivedAppend([e] + Receives(data), tail);
    DataReceivedAppend([e], Receives(data));
    DataReceivedOfReceives(data);
    assert DataReceived([e]) == [];
  }

  // ---------------------------------------------------------------------
  // Write

  /**
   * One character of Write: send it as data unless it is a newline, read the
   * cursor position back, and move to the start of line (lastLine + 1) mod
   * height after a newline, an offset past the width or a change of line.
   * As in the source, the new lastLine is lastLine + 1 as a byte, not reduced
   * modulo the height.
   */
  function WriteStep(device: Device, size: Size, history: seq<Event>, lastLine: byte, c: char): (r: (seq<Event>, byte))
    requires size.width != 0 && size.height != 0
    ensures |history| <= |r.0| && r.0[..|history|] == history
    ensures DataSent(r.0[|history|..]) == WireBytes([c])
    ensures var d := CustomToCode(c);
      var sent := if d != '\n' then history + [Transmit(true, CharByte(d))] else history;
      var status := device(sent, false);
      var p := PositionOf(size, StatusAddress(status));
      var moved := d == '\n' || p.offset >= size.width || p.line != lastLine;
      var next := ((lastLine as int + 1) % 256) as byte;
      && r.1 == (if moved then next else lastLine)
      && r.0 == sent + [Receive(false, status)]
         + (if moved then [Transmit(false, SetDDRAMAddressInstruction(CursorAddress(size, Position(next % size.height, 0))))] else [])
  {
    var d := CustomToCode(c);
    var sent := if d != '\n' then history + [Transmit(true, CharByte(d))] else history;
    var status := device(sent, false);
    var h2 := sent + [Receive(false, status)];
    var position := PositionOf(size, StatusAddress(status));
    var r := if d == '\n' || position.offset >= size.width || position.line != lastLine then
      var next := ((lastLine as int + 1) % 256) as byte;
      (h2 + [Transmit(false, SetDDRAMAddressInstruction(CursorAddress(size, Position(next % size.height, 0))))], next)
    else (h2, lastLine);
    WriteStepSent(history, c, status, r.0[|h2|..]);
    assert r.0 == h2 + r.0[|h2|..];
    r
  }

  /** The stretch one WriteStep adds holds, as data, only the character's wire byte. */
  lemma WriteStepSent(history: seq<Event>, c: char, status: byte, tail: seq<Event>)
    requires tail == [] || (|tail| == 1 && tail[0].Transmit? && !tail[0].rs)
    ensures var d := CustomToCode(c);
      var sent := if d != '\n' then history + [Transmit(true, CharByte(d))] else history;
      var h := sent + [Receive(false, status)] + tail;
      |history| <= |h| && h[..|history|] == history && DataSent(h[|history|..]) == WireBytes([c])
  {
    var d := CustomToCode(c);
    var sent := if d != '\n' then history + [Transmit(true, CharByte(d))] else history;
    var h := sent + [Receive(false, status)] + tail;
    assert [c][1..] == [];
    assert h[|history|..] == sent[|history|..] + ([Receive(false, status)] + tail);
    DataSentAppend(sent[|history|..], [Receive(false, status)] + tail);
    DataSentAppend([Receive(false, status)], tail);
    assert DataSent(tail) == [] by {
      if tail != [] {
        assert tail[1..] == [];
      }
    }
  }

  /** The rest of Write from `history` on, with `lastLine` and the characters still to send. */
  function WriteFrom(device: Device, size: Size, history: seq<Event>, lastLine: byte, message: string): seq<Event>
    requires size.width != 0 && size.height != 0
    decreases |message|
  {
    if message == [] then history
    else
      var step := WriteStep(device, size, history, lastLine, message[0]);
      WriteFrom(device, size, step.0, step.1, message[1..])
  }

  /** Write: read the cursor line, then send the message one character at a time. */
  function WriteTrace(device: Device, size: Size, history: seq<Event>, message: string): seq<Event>
    requires size.width != 0 && size.height != 0
  {
    var status := device(history, false);
    WriteFrom(device, size, history + [Receive(false, status)], PositionOf(size, StatusAddress(status)).line, message)
  }

  /**
   * Over a whole message, the data bytes Write sends are exactly WireBytes:
   * nothing for a newline, codes 0..7 for the characters 1..8, and the low
   * byte of every other character, in order.
   */
  lemma {:induction false} WriteFromSendsWireBytes(device: Device, size: Size, history: seq<Event>, lastLine: byte, message: string)
    requires size.width != 0 && size.height != 0
    ensures var h := WriteFrom(device, size, history, lastLine, message);
      |history| <= |h| && h[..|history|] == history && DataSent(h[|history|..]) == WireBytes(message)
    decreases |message|
  {
    if message != [] {
      var step := WriteStep(device, size, history, lastLine, message[0]);
      WriteFromSendsWireBytes(device, size, step.0, step.1, message[1..]);
      var h := WriteFrom(device, size, history, lastLine, message);
      assert h[|history|..] == step.0[|history|..] + h[|step.0|..];
      DataSentAppend(step.0[|history|..], h[|step.0|..]);
      assert message == [message[0]] + message[1..];
      assert WireBytes(message) == WireBytes([message[0]]) + WireBytes(message[1..]) by {
        assert [message[0]][1..] == [];
      }
    }
  }

  /** No data byte Write sends comes from a newline, and the characters 1..8 go out as 0..7. */
  lemma {:induction false} WireBytesAt(message: string, i: nat)
    requires i < |message| && forall k :: 0 <= k < |message| ==> message[k] != '\n'
    ensures |WireBytes(message)| == |message|
    ensures WireBytes(message)[i] == CharByte(CustomToCode(message[i]))
    ensures '\U{1}' <= message[i] <= '\U{8}' ==> WireBytes(message)[i] as int == message[i] as int - 1
  {
    if i > 0 {
      WireBytesAt(message[1..], i - 1);
    } else if |message| > 1 {
      WireBytesAt(message[1..], 0);
    }
  }

  /** A newline sends no data byte. */
  lemma NewlineSendsNothing()
    ensures WireBytes("\n") == []
  {
  }

  /**
   * As written, on a two-line display a newline on the second line sends the
   * cursor to line 0 but leaves lastLine at 2. If the next character then
   * reads back as line 0, offset 1, Write moves on to line 1 after that
   * single character.
   */
  lemma WriteLineCounterEscapes(device: Device, history: seq<Event>)
    requires device(history + [Transmit(true, 'a' as int as byte)], false) == 1
    ensures var size := Size(16, 2);
      var newline := WriteStep(device, size, history, 1, '\n');
      && newline.1 == 2
      && newline.0[|newline.0| - 1] == Transmit(false, SetDDRAMAddressInstruction(CursorAddress(size, Position(0, 0))))
    ensures var size := Size(16, 2);
      var next := WriteStep(device, size, history, 2, 'a');
      && next.1 == 3
      && next.0[|next.0| - 1] == Transmit(false, SetDDRAMAddressInstruction(CursorAddress(size, Position(1, 0))))
  {
  }

  /** The intended line bookkeeping: the line after `lastLine`, modulo the height. */
  function NextLine(lastLine: byte, height: byte): (r: byte)
    requires height != 0
    ensures r < height
    ensures lastLine < height ==> r as int == (lastLine as int + 1) % height as int
  {
    ((lastLine as int + 1) % height as int) as byte
  }

  /** WriteStep with lastLine kept modulo the height by NextLine. */
  function WriteStepIntended(device: Device, size: Size, history: seq<Event>, lastLine: byte, c: char): (r: (seq<Event>, byte))
    requires size.width != 0 && size.height != 0
    ensures lastLine < size.height ==> r.1 < size.height
    ensures |r.0| > |history|
    ensures r.1 != lastLine ==>
      r.1 == NextLine(lastLine, size.height)
      && r.0[|r.0| - 1] == Transmit(false, SetDDRAMAddressInstruction(CursorAddress(size, Position(r.1, 0))))
  {
    var d := CustomToCode(c);
    var sent := if d != '\n' then history + [Transmit(true, CharByte(d))] else history;
    var status := device(sent, false);
    var h2 := sent + [Receive(false, status)];
    var position := PositionOf(size, StatusAddress(status));
    if d == '\n' || position.offset >= size.width || position.line != lastLine then
      var next := NextLine(lastLine, size.height);
      (h2 + [Transmit(false, SetDDRAMAddressInstruction(CursorAddress(size, Position(next, 0))))], next)
    else (h2, lastLine)
  }

  /**
   * With the intended bookkeeping the counter names the line the cursor was
   * sent to, so the read-back of the case above causes no further move.
   */
  lemma WriteStepIntendedStaysOnLine(device: Device, history: seq<Event>)
    requires device(history + [Transmit(true, 'a' as int as byte)], false) == 1
    ensures var size := Size(16, 2);
      var newline := WriteStepIntended(device, size, history, 1, '\n');
      var next := WriteStepIntended(device, size, history, newline.1, 'a');
      && newline.1 == 0
      && next.1 == 0
      && next.0 == history + [Transmit(true, 'a' as int as byte), Receive(false, 1)]
  {
  }

  // ---------------------------------------------------------------------
  // The interface object

  class DisplayInterface {
    const device: Device
    var trace: seq<Event>

    constructor (device: Device)
      ensures this.device == device && trace == []
    {
      this.device := device;
      trace := [];
    }

    /** Drive R/W high and RS as given, cycle Enable, and latch the bus. */
    method ReceiveData(registerSelect: bool) returns (data: byte)
      modifies this
      ensures data == device(old(trace), registerSelect)
      ensures trace == old(trace) + [Receive(registerSelect, data)]
    {
      data := device(trace, registerSelect);
      trace := trace + [Receive(registerSelect, data)];
    }

    /** Drive R/W low, RS and the bus as given, and cycle Enable. */
    method TransmitData(registerSelect: bool, data: byte)
      modifies this
      ensures trace == old(trace) + [Transmit(registerSelect, data)]
    {
      trace := trace + [Transmit(registerSelect, data)];
    }

    method IsBusy() returns (busy: bool)
      modifies this
      ensures busy == StatusBusy(device(old(trace), false))
      ensures trace == old(trace) + [Receive(false, device(old(trace), false))]
    {
      var status := ReceiveData(false);
      busy := status >= 0x80;
    }

    method GetAddress() returns (address: byte)
      modifies this
      ensures address == StatusAddress(device(old(trace), false))
      ensures trace == old(trace) + [Receive(false, device(old(trace), false))]
    {
      var status := ReceiveData(false);
      address := status % 0x80;
    }

    method GetCursorPosition(size: Size) returns (position: Position)
      requires size.width != 0
      modifies this
      ensures position == PositionOf(size, StatusAddress(device(old(trace), false)))
      ensures trace == old(trace) + [Receive(false, device(old(trace), false))]
    {
      var address := GetAddress();
      var modSecondLine := address % SecondLineStartAddress;
      var line: byte;
      if modSecondLine >= size.width {
        line := if address >= SecondLineStartAddress then 3 else 2;
      } else {
        line := if address >= SecondLineStartAddress then 1 else 0;
      }
      position := Position(line, modSecondLine % size.width);
    }

    method SetDDRAMAddress(address: byte)
      modifies this
      ensures trace == old(trace) + [Transmit(false, SetDDRAMAddressInstruction(address))]
    {
      TransmitData(false, if address >= 0x80 then address else address + 0x80);
    }

    method SetCGRAMAddress(address: byte)
      modifies this
      ensures trace == old(trace) + [Transmit(false, SetCGRAMAddressInstruction(address))]
    {
      TransmitData(false, if address / 64 % 2 == 1 then address else address + 0x40);
    }

    method SetCursorPosition(size: Size, position: Position)
      modifies this
      ensures trace == old(trace) + [Transmit(false, SetDDRAMAddressInstruction(CursorAddress(size, position)))]
    {
      var offset := position.offset;
      if position.line % 2 != 0 {
        offset := ((offset as int + SecondLineStartAddress as int) % 256) as byte;
      }
      if position.line >= 2 {
        offset := ((offset as int + size.width as int) % 256) as byte;
      }
      SetDDRAMAddress(offset);
    }

    method Clear()
      modifies this
      ensures trace == old(trace) + [Transmit(false, ClearInstruction)]
    {
      TransmitData(false, 0x01);
    }

    method Home()
      modifies this
      ensures trace == old(trace) + [Transmit(false, HomeInstruction)]
    {
      TransmitData(false, 0x02);
    }

    method InitialiseDisplay(lines: bool, font: bool)
      modifies this
      ensures trace == old(trace) + [Transmit(false, FunctionSetInstruction(lines, font)), Transmit(false, ClearInstruction)]
    {
      var instruction: byte := 0x30;
      if lines {
        instruction := instruction + 0x08;
      }
      if font {
        instruction := instruction + 0x04;
      }
      TransmitData(false, instruction);
      Clear();
    }

    method DisplaySet(display: bool, cursor: bool, blink: bool)
      modifies this
      ensures trace == old(trace) + [Transmit(false, DisplayControlInstruction(display, cursor, blink))]
    {
      var instruction: byte := 0x08;
      if display {
        instruction := instruction + 0x04;
      }
      if cursor {
        instruction := instruction + 0x02;
      }
      if blink {
        instruction := instruction + 0x01;
      }
      TransmitData(false, instruction);
    }

    method Scroll(cursorScreen: bool, leftRight: bool)
      modifies this
      ensures trace == old(trace) + [Transmit(false, ShiftInstruction(cursorScreen, leftRight))]
    {
      var instruction: byte := 0x10;
      if cursorScreen {
        instruction := instruction + 0x08;
      }
      if leftRight {
        instruction := instruction + 0x04;
      }
      TransmitData(false, instruction);
    }

    method Backlight(power: bool)
      modifies this
      ensures trace == old(trace) + [SetBacklight(power)]
    {
      trace := trace + [SetBacklight(power)];
    }

    /**
     * The data reads of Read's inner loop and GetCustomChar's loop: `count`
     * reads with RS high, the controller moving its address after each.
     */
    method ReceiveDataBytes(count: nat) returns (data: seq<byte>)
      modifies this
      ensures (data, trace) == ReceiveMany(device, old(trace), count)
    {
      ghost var expected := ReceiveMany(device, trace, count);
      var buffer := new byte[count];
      var i := 0;
      while i < count
        invariant 0 <= i <= count
        invariant buffer[..i] + ReceiveMany(device, trace, count - i).0 == expected.0
        invariant ReceiveMany(device, trace, count - i).1 == expected.1
      {
        ghost var before := trace;
        var b := ReceiveData(true);
        assert ReceiveMany(device, before, count - i).0 == [b] + ReceiveMany(device, trace, count - i - 1).0;
        buffer[i] := b;
        assert buffer[..i + 1] == buffer[..i] + [b];
        i := i + 1;
      }
      assert ReceiveMany(device, trace, 0) == ([], trace);
      data := buffer[..];
      assert data == buffer[..count];
      assert data == expected.0;
      assert trace == expected.1;
      assert expected == ReceiveMany(device, old(trace), count);
    }

    /**
     * Read the screen as text: save the address, read each line from its
     * start, and restore the saved address.
     */
    method Read(size: Size) returns (text: string)
      modifies this
      ensures var status := device(old(trace), false);
        var screen := ReadScreen(device, size, old(trace) + [Receive(false, status)], 0);
        && text == screen.0
        && trace == screen.1 + [Transmit(false, SetDDRAMAddressInstruction(StatusAddress(status)))]
    {
      var oldAddress := GetAddress();
      ghost var screen := ReadScreen(device, size, trace, 0);
      text := "";
      var y: nat := 0;
      while y < size.height as nat
        invariant y <= size.height as nat
        invariant text + ReadScreen(device, size, trace, y).0 == screen.0
        invariant ReadScreen(device, size, trace, y).1 == screen.1
        decreases size.height as nat - y
      {
        ghost var before := trace;
        SetCursorPosition(size, Position(y as byte, 0));
        var data := ReceiveDataBytes(size.width as nat);
        ReadLineStep(device, size, before, y, data, trace, text, screen);
        text := text + ReadChars(data) + "\n";
        y := y + 1;
      }
      assert ReadScreen(device, size, trace, y) == ("", trace);
      assert text == screen.0 && trace == screen.1;
      SetDDRAMAddress(oldAddress);
    }

    /** Read the eight rows of a custom character, saving and restoring the address. */
    method GetCustomChar(charNumber: byte) returns (pixels: seq<byte>)
      modifies this
      ensures var status := device(old(trace), false);
        var rows := ReceiveMany(device, old(trace) + [Receive(false, status), Transmit(false, SetCGRAMAddressInstruction(CharAddress(charNumber)))], 8);
        && pixels == rows.0
        && trace == rows.1 + [Transmit(false, SetDDRAMAddressInstruction(StatusAddress(status)))]
    {
      ghost var status := device(trace, false);
      ghost var start := trace + [Receive(false, status), Transmit(false, SetCGRAMAddressInstruction(CharAddress(charNumber)))];
      var oldAddress := GetAddress();
      SetCGRAMAddress(CharAddress(charNumber));
      assert trace == start;
      pixels := ReceiveDataBytes(8);
      ghost var rows := ReceiveMany(device, start, 8);
      assert pixels == rows.0 && trace == rows.1;
      SetDDRAMAddress(oldAddress);
    }

    /**
     * Write a message from the cursor on. Models the source as written,
     * including a lastLine that is never reduced modulo the height.
     */
    method Write(size: Size, message: string)
      requires size.width != 0 && size.height != 0
      modifies this
      ensures trace == WriteTrace(device, size, old(trace), message)
    {
      var start := GetCursorPosition(size);
      var lastLine := start.line;
      var i := 0;
      while i < |message|
        invariant 0 <= i <= |message|
        invariant WriteFrom(device, size, trace, lastLine, message[i..]) == WriteTrace(device, size, old(trace), message)
      {
        ghost var before, beforeLine := trace, lastLine;
        var c := message[i];
        if '\U{1}' <= c <= '\U{8}' {
          c := (c as int - 1) as char;
        }
        if c != '\n' {
          TransmitData(true, (c as int % 256) as byte);
        }
        var position := GetCursorPosition(size);
        if c == '\n' || position.offset >= size.width || position.line != lastLine {
          lastLine := ((lastLine as int + 1) % 256) as byte;
          SetCursorPosition(size, Position(lastLine % size.height, 0));
        }
        assert (trace, lastLine) == WriteStep(device, size, before, beforeLine, message[i]);
        assert message[i..][1..] == message[i + 1..];
        i := i + 1;
      }
    }

    /**
     * Define a custom character: save the address, point at the character's
     * CGRAM rows, send eight rows of five bits, restore the address.
     */
    method DefineCustomChar(charNumber: byte, pixels: seq<byte>)
      requires |pixels| >= 8
      modifies this
      ensures var status := device(old(trace), false);
        trace == old(trace)
          + [Receive(false, status), Transmit(false, SetCGRAMAddressInstruction(CharAddress(charNumber)))]
          + CustomCharRows(pixels[..8])
          + [Transmit(false, SetDDRAMAddressInstruction(StatusAddress(status)))]
    {
      var oldAddress := GetAddress();
      SetCGRAMAddress(CharAddress(charNumber));
      ghost var start := trace;
      var i := 0;
      while i < 8
        invariant 0 <= i <= 8
        invariant trace == start + CustomCharRows(pixels[..i])
      {
        TransmitData(true, pixels[i] % 0x20);
        assert pixels[..i + 1] == pixels[..i] + [pixels[i]];
        CustomCharRowsAppend(pixels[..i], pixels[i]);
        i := i + 1;
      }
      SetDDRAMAddress(oldAddress);
    }
  }

  /** `(byte)(charNumber * 8)`: the CGRAM address of a custom character's first row. */
  function CharAddress(charNumber: byte): (a: byte)
    ensures charNumber < 8 ==> a as int == charNumber as int * 8 && a < 64
  {
    ((charNumber as int * 8) % 256) as byte
  }

  /** The data transmissions DefineCustomChar makes: each row masked to its low five bits. */
  function CustomCharRows(rows: seq<byte>): (e: seq<Event>)
    ensures |e| == |rows|
    ensures forall i :: 0 <= i < |rows| ==> e[i] == Transmit(true, rows[i] % 0x20) && e[i].data <= 31
  {
    seq(|rows|, i requires 0 <= i < |rows| => Transmit(true, rows[i] % 0x20))
  }

  lemma CustomCharRowsAppend(rows: seq<byte>, row: byte)
    ensures CustomCharRows(rows + [row]) == CustomCharRows(rows) + [Transmit(true, row % 0x20)]
  {
  }

  /** DefineCustomChar sends exactly the masked rows, in order, as data bytes. */
  lemma {:induction false} CustomCharRowsSent(rows: seq<byte>)
    ensures |DataSent(CustomCharRows(rows))| == |rows|
    ensures forall i :: 0 <= i < |rows| ==> DataSent(CustomCharRows(rows))[i] == rows[i] % 0x20
  {
    if rows != [] {
      assert CustomCharRows(rows)[1..] == CustomCharRows(rows[1..]);
      CustomCharRowsSent(rows[1..]);
    }
  }
}
