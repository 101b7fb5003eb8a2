/**
 * The interactive command line: it splits a line of input into words,
 * validates a command's arguments and chooses the display interface call
 * the command makes. The calls are recorded as values; what each one does
 * on the bus is the business of the Interface module.
 */
module Cli {
  import opened Wrappers
  import opened Interface

  const MaxScreenWidth: byte := 40
  const MaxScreenHeight: byte := 4
  const MaxScreenChars: nat := 80

  /** The size the command line starts with: two lines of sixteen characters. */
  const InitialSize: Size := Size(16, 2)

  // ---------------------------------------------------------------------
  // Splitting a command into words

  /** The words of `s`, split on ' ' with empty words dropped, where `word` is the word under way. */
  function SplitFrom(s: string, word: string): seq<string>
    decreases |s|
  {
    if s == [] then (if word == [] then [] else [word])
    else if s[0] == ' ' then (if word == [] then [] else [word]) + SplitFrom(s[1..], [])
    else SplitFrom(s[1..], word + [s[0]])
  }

  /** `s.Split(' ', StringSplitOptions.RemoveEmptyEntries)`. */
  function Split(s: string): (words: seq<string>)
    ensures forall i :: 0 <= i < |words| ==> IsWord(words[i])
    ensures Flatten(words) == WithoutSpaces(s)
  {
    SplitFromWords(s, []);
    assert [] + WithoutSpaces(s) == WithoutSpaces(s);
    SplitFrom(s, [])
  }

  predicate NoSpace(w: string)
  {
    forall i :: 0 <= i < |w| ==> w[i] != ' '
  }

  /** A word Split can produce: not empty and without a space. */
  predicate IsWord(w: string)
  {
    w != [] && NoSpace(w)
  }

  /** The characters of `s` other than spaces. */
  function WithoutSpaces(s: string): string
  {
    if s == [] then [] else (if s[0] == ' ' then [] else [s[0]]) + WithoutSpaces(s[1..])
  }

  function Flatten(ws: seq<string>): string
  {
    if ws == [] then [] else ws[0] + Flatten(ws[1..])
  }

  /** Words joined with single spaces. */
  function JoinWords(ws: seq<string>): string
  {
    if ws == [] then [] else if |ws| == 1 then ws[0] else ws[0] + " " + JoinWords(ws[1..])
  }

  lemma FlattenAppend(a: seq<string>, b: seq<string>)
    ensures Flatten(a + b) == Flatten(a) + Flatten(b)
  {
    if a != [] {
      assert (a + b)[1..] == a[1..] + b;
    } else {
      assert a + b == b;
    }
  }

  /** Every word of the split is a real word, and together they hold exactly the non-space characters. */
  lemma {:induction false} SplitFromWords(s: string, word: string)
    requires NoSpace(word)
    ensures forall i :: 0 <= i < |SplitFrom(s, word)| ==> IsWord(SplitFrom(s, word)[i])
    ensures Flatten(SplitFrom(s, word)) == word + WithoutSpaces(s)
    decreases |s|
  {
    if s == [] {
      assert word + WithoutSpaces(s) == word;
    } else if s[0] == ' ' {
      var head: seq<string> := if word == [] then [] else [word];
      SplitFromWords(s[1..], []);
      FlattenAppend(head, SplitFrom(s[1..], []));
      assert Flatten(head) == word;
      assert WithoutSpaces(s) == WithoutSpaces(s[1..]);
    } else {
      SplitFromWords(s[1..], word + [s[0]]);
      assert WithoutSpaces(s) == [s[0]] + WithoutSpaces(s[1..]);
      assert word + [s[0]] + WithoutSpaces(s[1..]) == word + WithoutSpaces(s);
    }
  }

  /** A word under way absorbs the rest of its word. */
  lemma {:induction false} SplitFromWord(w: string, rest: string, word: string)
    requires NoSpace(w)
    ensures SplitFrom(w + rest, word) == SplitFrom(rest, word + w)
    decreases |w|
  {
    if w == [] {
      assert w + rest == rest;
      assert word + w == word;
    } else {
      assert (w + rest)[0] == w[0];
      assert (w + rest)[1..] == w[1..] + rest;
      SplitFromWord(w[1..], rest, word + [w[0]]);
      assert word + [w[0]] + w[1..] == word + w;
    }
  }

  /** Splitting words joined by single spaces gives the words back. */
  lemma {:induction false} SplitJoinWords(ws: seq<string>)
    requires forall i :: 0 <= i < |ws| ==> IsWord(ws[i])
    ensures Split(JoinWords(ws)) == ws
  {
    if ws == [] {
    } else if |ws| == 1 {
      SplitFromWord(ws[0], [], []);
      assert ws[0] + [] == ws[0];
      assert [] + ws[0] == ws[0];
    } else {
      var rest := JoinWords(ws[1..]);
      assert ws[0] + " " + rest == ws[0] + (" " + rest);
      SplitFromWord(ws[0], " " + rest, []);
      assert [] + ws[0] == ws[0];
      assert (" " + rest)[1..] == rest;
      assert SplitFrom(" " + rest, ws[0]) == [ws[0]] + SplitFrom(rest, []);
      SplitJoinWords(ws[1..]);
      assert ws == [ws[0]] + ws[1..];
    }
  }

  /** Input that starts with a non-space character has a first word, and that word starts with it. */
  lemma {:induction false} SplitFirstWord(s: string)
    requires s != [] && s[0] != ' '
    ensures |Split(s)| > 0 && Split(s)[0] != [] && Split(s)[0][0] == s[0]
  {
    assert [] + [s[0]] == [s[0]];
    SplitFromStarted(s[1..], [s[0]]);
  }

  lemma {:induction false} SplitFromStarted(s: string, word: string)
    requires word != []
    ensures |SplitFrom(s, word)| > 0 && SplitFrom(s, word)[0] != [] && SplitFrom(s, word)[0][0] == word[0]
    decreases |s|
  {
    if s != [] && s[0] != ' ' {
      SplitFromStarted(s[1..], word + [s[0]]);
    }
  }

  // ---------------------------------------------------------------------
  // Number parsing

  predicate IsDigit(c: char)
  {
    '0' <= c <= '9'
  }

  predicate AllDigits(s: string)
  {
    forall i :: 0 <= i < |s| ==> IsDigit(s[i])
  }

  /** The decimal value of a string of digits. */
  function DecimalValue(s: string): nat
    requires AllDigits(s)
  {
    if s == [] then 0 else DecimalValue(s[..|s| - 1]) * 10 + (s[|s| - 1] as int - '0' as int)
  }

  /** `byte.TryParse` on digits: a non-empty string of decimal digits whose value fits a byte. */
  function ParseByte(s: string): (r: Option<byte>)
    ensures r.Some? <==> s != [] && AllDigits(s) && DecimalValue(s) < 256
    ensures r.Some? ==> r.value as int == DecimalValue(s)
  {
    if s != [] && AllDigits(s) && DecimalValue(s) < 256 then Some(DecimalValue(s) as byte) else None
  }

  function DigitChar(d: nat): (c: char)
    requires d < 10
    ensures IsDigit(c) && c as int - '0' as int == d
  {
    ('0' as int + d) as char
  }

  /** The decimal text of a number, without leading zeros. */
  function Decimal(n: nat): (s: string)
    ensures s != [] && AllDigits(s)
  {
    if n < 10 then [DigitChar(n)] else Decimal(n / 10) + [DigitChar(n % 10)]
  }

  /** Parsing the decimal text of a byte gives the byte back. */
  lemma {:induction false} DecimalRoundTrip(n: nat)
    ensures DecimalValue(Decimal(n)) == n
  {
    var s := Decimal(n);
    if n >= 10 {
      DecimalRoundTrip(n / 10);
      assert s[..|s| - 1] == Decimal(n / 10);
    }
  }

  lemma ParseByteDecimal(n: byte)
    ensures ParseByte(Decimal(n as nat)) == Some(n)
  {
    DecimalRoundTrip(n as nat);
  }

  predicate AllBinary(s: string)
  {
    forall i :: 0 <= i < |s| ==> s[i] == '0' || s[i] == '1'
  }

  /** The value of a string of binary digits, most significant first. */
  function BinaryValue(s: string): nat
    requires AllBinary(s)
  {
    if s == [] then 0 else BinaryValue(s[..|s| - 1]) * 2 + (if s[|s| - 1] == '1' then 1 else 0)
  }

  function Pow2(k: nat): (p: nat)
    ensures p >= 1
  {
    if k == 0 then 1 else 2 * Pow2(k - 1)
  }

  lemma {:induction false} BinaryValueBound(s: string)
    requires AllBinary(s)
    ensures BinaryValue(s) < Pow2(|s|)
  {
    if s != [] {
      BinaryValueBound(s[..|s| - 1]);
    }
  }

  /** `Convert.ToByte(s, 2)` on binary digits: a non-empty string of '0'/'1' whose value fits a byte. */
  function ParseBinary(s: string): (r: Option<byte>)
    ensures r.Some? <==> s != [] && AllBinary(s) && BinaryValue(s) < 256
    ensures r.Some? ==> r.value as int == BinaryValue(s)
  {
    if s != [] && AllBinary(s) && BinaryValue(s) < 256 then Some(BinaryValue(s) as byte) else None
  }

  /** The `width` low binary digits of `n`, most significant first. */
  function Binary(n: nat, width: nat): (s: string)
    ensures |s| == width && AllBinary(s)
  {
    if width == 0 then [] else Binary(n / 2, width - 1) + [if n % 2 == 1 then '1' else '0']
  }

  lemma {:induction false} BinaryRoundTrip(n: nat, width: nat)
    requires n < Pow2(width)
    ensures BinaryValue(Binary(n, width)) == n
  {
    if width > 0 {
      var s := Binary(n, width);
      BinaryRoundTrip(n / 2, width - 1);
      assert s[..|s| - 1] == Binary(n / 2, width - 1);
    }
  }

  /** Eight characters parse exactly when they are all binary digits. */
  lemma ParseBinaryEight(s: string)
    requires |s| == 8
    ensures ParseBinary(s).Some? <==> AllBinary(s)
  {
    if AllBinary(s) {
      BinaryValueBound(s);
      assert Pow2(8) == 256;
    }
  }

  /** Parsing the eight binary digits of a byte gives the byte back. */
  lemma ParseBinaryOfByte(n: byte)
    ensures ParseBinary(Binary(n as nat, 8)) == Some(n)
  {
    assert Pow2(8) == 256;
    BinaryRoundTrip(n as nat, 8);
  }

  /** Five characters parse exactly when they are all binary digits, and then to a custom character row below 32. */
  lemma ParseBinaryFive(s: string)
    requires |s| == 5
    ensures ParseBinary(s).Some? <==> AllBinary(s)
    ensures ParseBinary(s).Some? ==> ParseBinary(s).value < 32
  {
    if AllBinary(s) {
      BinaryValueBound(s);
      assert Pow2(5) == 32;
    }
  }

  // ---------------------------------------------------------------------
  // Commands

  /** The display interface calls a command can make. */
  datatype Call =
    | Write(size: Size, text: string)
    | InitialiseDisplay(lines: bool, font: bool)
    | DisplaySet(display: bool, cursor: bool, blink: bool)
    | Clear
    | Home
    | Scroll(cursorScreen: bool, leftRight: bool)
    | Backlight(power: bool)
    | DefineCustomChar(charNumber: byte, pixels: seq<byte>)
    | GetCustomChar(charNumber: byte)
    | SetCursorPosition(size: Size, position: Position)
    | GetCursorPosition(size: Size)
    | Read(size: Size)
    | TransmitData(registerSelect: bool, data: byte)
    | ReceiveData(registerSelect: bool)

  /** Why a command's arguments are refused. */
  datatype ArgumentError =
    | ArgumentCount              // the wrong number of arguments
    | InvalidArgument(index: nat) // argument `index` (0-based) is not acceptable
    | TooManyCharacters          // width times height exceeds the maximum

  /** Why an input line makes no call. */
  datatype Rejection =
    | EmptyInput
    | UnknownCommand(command: string)
    | InvalidArguments(command: string, error: ArgumentError)

  /** What the command line does with one line of input. */
  datatype Outcome =
    | Exit
    | ShowHelp
    | Resize(size: Size)
    | Invoke(call: Call)
    | Rejected(rejection: Rejection)

  /** A "0"/"1" switch. */
  function Flag(arg: string): (r: Option<bool>)
    ensures r == Some(false) <==> arg == "0"
    ensures r == Some(true) <==> arg == "1"
  {
    if arg == "0" then Some(false) else if arg == "1" then Some(true) else None
  }

  /** #set_size height width. */
  function SetSizeArgs(args: seq<string>): (r: Result<Size, ArgumentError>)
    ensures r.Ok? ==> SupportedSize(r.value)
    ensures r.Ok? <==> (|args| == 2 && ParseByte(args[0]).Some? && ParseByte(args[1]).Some?
      && SupportedSize(Size(ParseByte(args[1]).value, ParseByte(args[0]).value)))
    ensures r.Ok? ==> r.value == Size(ParseByte(args[1]).value, ParseByte(args[0]).value)
    ensures |args| != 2 ==> r == Err(ArgumentCount)
  {
    if |args| != 2 then Err(ArgumentCount)
    else
      var height := ParseByte(args[0]);
      if height.None? || height.value < 1 || height.value > MaxScreenHeight then Err(InvalidArgument(0))
      else
        var width := ParseByte(args[1]);
        if width.None? || width.value < 1 || width.value > MaxScreenWidth then Err(InvalidArgument(1))
        else if width.value as int * height.value as int > MaxScreenChars then Err(TooManyCharacters)
        else Ok(Size(width.value, height.value))
  }

  /** #init 1/2 8/11. */
  function InitArgs(args: seq<string>): (r: Result<Call, ArgumentError>)
    ensures r.Ok? <==> |args| == 2 && (args[0] == "1" || args[0] == "2") && (args[1] == "8" || args[1] == "11")
    ensures r.Ok? ==> r.value == InitialiseDisplay(args[0] == "2", args[1] == "11")
  {
    if |args| != 2 then Err(ArgumentCount)
    else if args[0] != "1" && args[0] != "2" then Err(InvalidArgument(0))
    else if args[1] != "8" && args[1] != "11" then Err(InvalidArgument(1))
    else Ok(InitialiseDisplay(args[0] == "2", args[1] == "11"))
  }

  /** #set 0/1 0/1 0/1. */
  function SetArgs(args: seq<string>): (r: Result<Call, ArgumentError>)
    ensures r.Ok? <==> |args| == 3 && Flag(args[0]).Some? && Flag(args[1]).Some? && Flag(args[2]).Some?
    ensures r.Ok? ==> r.value == DisplaySet(args[0] == "1", args[1] == "1", args[2] == "1")
    ensures r.Err? && |args| == 3 && Flag(args[0]).Some? && Flag(args[1]).Some? ==> r.error == InvalidArgument(2)
  {
    if |args| != 3 then Err(ArgumentCount)
    else if Flag(args[0]).None? then Err(InvalidArgument(0))
    else if Flag(args[1]).None? then Err(InvalidArgument(1))
    else if Flag(args[2]).None? then Err(InvalidArgument(2))
    else Ok(DisplaySet(Flag(args[0]).value, Flag(args[1]).value, Flag(args[2]).value))
  }

  /** A command that takes no arguments. */
  function NoArgs(args: seq<string>, call: Call): (r: Result<Call, ArgumentError>)
    ensures r.Ok? <==> args == []
    ensures r.Ok? ==> r.value == call
  {
    if |args| != 0 then Err(ArgumentCount) else Ok(call)
  }

  /** #scroll c/s l/r: screen and right are the true settings. */
  function ScrollArgs(args: seq<string>): (r: Result<Call, ArgumentError>)
    ensures r.Ok? <==> |args| == 2 && (args[0] == "c" || args[0] == "s") && (args[1] == "l" || args[1] == "r")
    ensures r.Ok? ==> r.value == Scroll(args[0] == "s", args[1] == "r")
  {
    if |args| != 2 then Err(ArgumentCount)
    else if args[0] != "c" && args[0] != "s" then Err(InvalidArgument(0))
    else if args[1] != "l" && args[1] != "r" then Err(InvalidArgument(1))
    else Ok(Scroll(args[0] == "s", args[1] == "r"))
  }

  /** #backlight 0/1. */
  function BacklightArgs(args: seq<string>): (r: Result<Call, ArgumentError>)
    ensures r.Ok? <==> |args| == 1 && Flag(args[0]).Some?
    ensures r.Ok? ==> r.value == Backlight(args[0] == "1")
  {
    if |args| != 1 then Err(ArgumentCount)
    else if Flag(args[0]).None? then Err(InvalidArgument(0))
    else Ok(Backlight(Flag(args[0]).value))
  }

  /**
   * A custom character index: one character whose code minus '0', cut to
   * a byte, is at most 7.
   */
  function CharIndex(arg: string): (r: Option<byte>)
    ensures r.Some? ==> r.value <= 7
    ensures |arg| == 1 && '0' <= arg[0] <= '7' ==> r == Some((arg[0] as int - '0' as int) as byte)
    ensures |arg| == 1 && '8' <= arg[0] <= '9' ==> r.None?
    ensures |arg| != 1 ==> r.None?
  {
    if |arg| != 1 then None
    else
      var index := (arg[0] as int - '0' as int) % 256;
      if index > 7 then None else Some(index as byte)
  }

  /** The byte cast lets through more than the digits: U+0130 (code 48 + 256) names character 0. */
  lemma CharIndexWrapsAround()
    ensures CharIndex("\U{130}") == Some(0)
    ensures CharIndex("\U{137}") == Some(7)
  {
  }

  /** The rows of #def_custom, from argument `from` on, or the index of the first bad one. */
  function CustomRows(args: seq<string>, from: nat): (r: Result<seq<byte>, ArgumentError>)
    requires from <= |args|
    ensures r.Ok? ==> |r.value| == |args| - from
    ensures r.Ok? ==> forall i :: 0 <= i < |r.value| ==> r.value[i] < 32
    ensures r.Ok? <==> forall i :: from <= i < |args| ==> |args[i]| == 5 && AllBinary(args[i])
    ensures r.Ok? ==> forall i :: from <= i < |args| ==> ParseBinary(args[i]) == Some(r.value[i - from])
    ensures r.Err? ==> r.error.InvalidArgument? && from <= r.error.index < |args|
    decreases |args| - from
  {
    if from == |args| then Ok([])
    else if |args[from]| != 5 then Err(InvalidArgument(from))
    else
      ParseBinaryFive(args[from]);
      if ParseBinary(args[from]).None? then Err(InvalidArgument(from))
      else
      var rest := CustomRows(args, from + 1);
      if rest.Err? then rest else Ok([ParseBinary(args[from]).value] + rest.value)
  }

  /** The rows parsed so far in front of the parse of the rest, or the error the rest fails with. */
  function Prepend(rows: seq<byte>, rest: Result<seq<byte>, ArgumentError>): (r: Result<seq<byte>, ArgumentError>)
    ensures r.Ok? <==> rest.Ok?
    ensures rest.Err? ==> r == rest
    ensures rest.Ok? ==> |r.value| == |rows| + |rest.value| && r.value[..|rows|] == rows && r.value[|rows|..] == rest.value
  {
    if rest.Err? then rest else Ok(rows + rest.value)
  }

  /**
   * The row loop of #def_custom: fill eight pixel rows from arguments 1..8,
   * stopping at the first that is not five binary digits.
   */
  method ParseCustomRows(args: seq<string>) returns (r: Result<seq<byte>, ArgumentError>)
    requires |args| == 9
    ensures r == CustomRows(args, 1)
  {
    var pixels := new byte[8](_ => 0);
    for i := 0 to 8
      invariant CustomRows(args, 1) == Prepend(pixels[..i], CustomRows(args, i + 1))
    {
      var binary := args[i + 1];
      CustomRowsStep(args, i + 1);
      if |binary| != 5 {
        return Err(InvalidArgument(i + 1));
      }
      var row := ParseBinary(binary);
      if row.None? {
        return Err(InvalidArgument(i + 1));
      }
      ghost var before := pixels[..i];
      pixels[i] := row.value;
      assert pixels[..i + 1] == before + [row.value];
      PrependTwice(before, row.value, CustomRows(args, i + 2));
    }
    assert CustomRows(args, 9) == Ok([]);
    assert pixels[..] == pixels[..8] + [];
    r := Ok(pixels[..]);
  }

  /** One row of CustomRows: the row's error, or its value in front of the rest. */
  lemma CustomRowsStep(args: seq<string>, from: nat)
    requires from < |args|
    ensures |args[from]| != 5 || ParseBinary(args[from]).None? ==> CustomRows(args, from) == Err(InvalidArgument(from))
    ensures |args[from]| == 5 && ParseBinary(args[from]).Some?
      ==> CustomRows(args, from) == Prepend([ParseBinary(args[from]).value], CustomRows(args, from + 1))
  {
  }

  lemma PrependTwice(rows: seq<byte>, row: byte, rest: Result<seq<byte>, ArgumentError>)
    ensures Prepend(rows, Prepend([row], rest)) == Prepend(rows + [row], rest)
  {
    if rest.Ok? {
      assert rows + ([row] + rest.value) == (rows + [row]) + rest.value;
    }
  }

  /** #def_custom index row0 .. row7. */
  function DefCustomArgs(args: seq<string>): (r: Result<Call, ArgumentError>)
    ensures r.Ok? <==> (|args| == 9 && CharIndex(args[0]).Some?
      && forall i :: 1 <= i < 9 ==> |args[i]| == 5 && AllBinary(args[i]))
    ensures r.Ok? ==> (r.value.DefineCustomChar? && r.value.charNumber == CharIndex(args[0]).value
      && |r.value.pixels| == 8
      && forall i :: 0 <= i < 8 ==> r.value.pixels[i] < 32 && ParseBinary(args[i + 1]) == Some(r.value.pixels[i]))
  {
    if |args| != 9 then Err(ArgumentCount)
    else if CharIndex(args[0]).None? then Err(InvalidArgument(0))
    else
      var rows := CustomRows(args, 1);
      if rows.Err? then Err(rows.error) else Ok(DefineCustomChar(CharIndex(args[0]).value, rows.value))
  }

  /** The argument of #write_custom and #read_custom. */
  function CustomIndexArgs(args: seq<string>): (r: Result<byte, ArgumentError>)
    ensures r.Ok? <==> |args| == 1 && CharIndex(args[0]).Some?
    ensures r.Ok? ==> r.value == CharIndex(args[0]).value && r.value <= 7
  {
    if |args| != 1 then Err(ArgumentCount)
    else if CharIndex(args[0]).None? then Err(InvalidArgument(0))
    else Ok(CharIndex(args[0]).value)
  }

  /**
   * #write_custom index, as written: `$"{(char)index + 1}"` adds to the
   * char as a number, so the text written is the decimal number index + 1.
   */
  function WriteCustomArgs(size: Size, args: seq<string>): (r: Result<Call, ArgumentError>)
    ensures r.Ok? <==> |args| == 1 && CharIndex(args[0]).Some?
    ensures r.Ok? ==> r.value == Write(size, [DigitChar(CharIndex(args[0]).value as nat + 1)])
  {
    match CustomIndexArgs(args)
    case Err(e) => Err(e)
    case Ok(index) => Ok(Write(size, Decimal(index as nat + 1)))
  }

  /** The text #write_custom writes is a digit, so the byte sent is the digit's code and not the custom character. */
  lemma WriteCustomSendsDigit(size: Size)
    ensures WriteCustomArgs(size, ["0"]) == Ok(Write(size, "1"))
    ensures WireBytes("1") == [0x31]
  {
  }

  /** #setpos line offset: 1-based line within the height, offset within the width; the call gets line - 1. */
  function SetposArgs(size: Size, args: seq<string>): (r: Result<Call, ArgumentError>)
    ensures r.Ok? <==> (|args| == 2 && ParseByte(args[0]).Some? && 1 <= ParseByte(args[0]).value <= size.height
      && ParseByte(args[1]).Some? && ParseByte(args[1]).value < size.width)
    ensures r.Ok? ==> r.value == SetCursorPosition(size, Position(ParseByte(args[0]).value - 1, ParseByte(args[1]).value))
  {
    if |args| != 2 then Err(ArgumentCount)
    else
      var line := ParseByte(args[0]);
      if line.None? || line.value < 1 || line.value > size.height then Err(InvalidArgument(0))
      else
        var offset := ParseByte(args[1]);
        if offset.None? || offset.value >= size.width then Err(InvalidArgument(1))
        else Ok(SetCursorPosition(size, Position(line.value - 1, offset.value)))
  }

  /** A position #setpos accepts on a supported size is one the cursor arithmetic maps back to itself. */
  lemma SetposRoundTrip(size: Size, args: seq<string>)
    requires SupportedSize(size)
    requires SetposArgs(size, args).Ok?
    ensures var p := SetposArgs(size, args).value.position;
      PositionOf(size, CursorAddress(size, p)) == p
  {
    CursorRoundTrip(size, SetposArgs(size, args).value.position);
  }

  /** #raw_tx 0/1 followed by eight binary digits. */
  function RawTxArgs(args: seq<string>): (r: Result<Call, ArgumentError>)
    ensures r.Ok? <==> |args| == 2 && Flag(args[0]).Some? && |args[1]| == 8 && AllBinary(args[1])
    ensures r.Ok? ==> (ParseBinary(args[1]).Some?
      && r.value == TransmitData(args[0] == "1", ParseBinary(args[1]).value))
  {
    if |args| != 2 then Err(ArgumentCount)
    else if Flag(args[0]).None? then Err(InvalidArgument(0))
    else if |args[1]| != 8 then Err(InvalidArgument(1))
    else
      ParseBinaryEight(args[1]);
      if ParseBinary(args[1]).None? then Err(InvalidArgument(1))
      else Ok(TransmitData(Flag(args[0]).value, ParseBinary(args[1]).value))
  }

  /** #raw_rx 0/1. */
  function RawRxArgs(args: seq<string>): (r: Result<Call, ArgumentError>)
    ensures r.Ok? <==> |args| == 1 && Flag(args[0]).Some?
    ensures r.Ok? ==> r.value == ReceiveData(args[0] == "1")
  {
    if |args| != 1 then Err(ArgumentCount)
    else if Flag(args[0]).None? then Err(InvalidArgument(0))
    else Ok(ReceiveData(Flag(args[0]).value))
  }

  /** A command's call, or the rejection naming the command. */
  function Invoking(command: string, r: Result<Call, ArgumentError>): (o: Outcome)
    ensures r.Ok? ==> o == Invoke(r.value)
    ensures r.Err? ==> o == Rejected(InvalidArguments(command, r.error))
  {
    if r.Ok? then Invoke(r.value) else Rejected(InvalidArguments(command, r.error))
  }

  /** The commands the command line knows. */
  const Commands: seq<string> := [
    "#exit", "#help", "#set_size", "#init", "#set", "#clear", "#home", "#scroll",
    "#backlight", "#def_custom", "#write_custom", "#read_custom", "#newline",
    "#setpos", "#getpos", "#read", "#raw_tx", "#raw_rx"]

  /** What a command word with its arguments does. */
  function Dispatch(size: Size, command: string, args: seq<string>): (o: Outcome)
    ensures command !in Commands ==> o == Rejected(UnknownCommand(command))
    ensures o == Exit <==> command == "#exit"
    ensures o.Resize? ==> command == "#set_size" && SupportedSize(o.size)
    ensures command == "#set_size" ==> (o.Resize? <==> SetSizeArgs(args).Ok?)
    ensures o.Resize? ==> o.size == SetSizeArgs(args).value
    ensures o != Rejected(EmptyInput)
  {
    if command == "#exit" then Exit
    else if command == "#help" then (if |args| != 0 then Rejected(InvalidArguments(command, ArgumentCount)) else ShowHelp)
    else if command == "#set_size" then
      (match SetSizeArgs(args)
       case Ok(s) => Resize(s)
       case Err(e) => Rejected(InvalidArguments(command, e)))
    else if command == "#init" then Invoking(command, InitArgs(args))
    else if command == "#set" then Invoking(command, SetArgs(args))
    else if command == "#clear" then Invoking(command, NoArgs(args, Clear))
    else if command == "#home" then Invoking(command, NoArgs(args, Home))
    else if command == "#scroll" then Invoking(command, ScrollArgs(args))
    else if command == "#backlight" then Invoking(command, BacklightArgs(args))
    else if command == "#def_custom" then Invoking(command, DefCustomArgs(args))
    else if command == "#write_custom" then Invoking(command, WriteCustomArgs(size, args))
    else if command == "#read_custom" then
      Invoking(command, match CustomIndexArgs(args) case Ok(i) => Ok(GetCustomChar(i)) case Err(e) => Err(e))
    else if command == "#newline" then Invoking(command, NoArgs(args, Write(size, "\n")))
    else if command == "#setpos" then Invoking(command, SetposArgs(size, args))
    else if command == "#getpos" then Invoking(command, NoArgs(args, GetCursorPosition(size)))
    else if command == "#read" then Invoking(command, NoArgs(args, Read(size)))
    else if command == "#raw_tx" then Invoking(command, RawTxArgs(args))
    else if command == "#raw_rx" then Invoking(command, RawRxArgs(args))
    else Rejected(UnknownCommand(command))
  }

  /** What the command line does with one line of input. */
  function Handle(size: Size, input: string): (o: Outcome)
    ensures input == [] <==> o == Rejected(EmptyInput)
    ensures input != [] && input[0] != '#' ==> o == Invoke(Write(size, input))
    ensures o.Resize? ==> SupportedSize(o.size)
  {
    if |input| == 0 then Rejected(EmptyInput)
    else if input[0] == '#' then
      SplitFirstWord(input);
      var words := Split(input);
      Dispatch(size, words[0], words[1..])
    else Invoke(Write(size, input))
  }

  /** A command typed as words separated by single spaces is dispatched on exactly those words. */
  lemma HandleCommand(size: Size, words: seq<string>)
    requires forall i :: 0 <= i < |words| ==> IsWord(words[i])
    requires |words| > 0 && words[0] != [] && words[0][0] == '#'
    ensures Handle(size, JoinWords(words)) == Dispatch(size, words[0], words[1..])
  {
    SplitJoinWords(words);
    assert JoinWords(words)[0] == words[0][0];
  }

  /** How #read shows the screen text: the custom characters 1..8 become '#'. */
  function ShowRead(text: string): (shown: string)
    ensures |shown| == |text|
    ensures forall i :: 0 <= i < |text| ==> shown[i] == (if '\U{1}' <= text[i] <= '\U{8}' then '#' else text[i])
  {
    seq(|text|, i requires 0 <= i < |text| => if '\U{1}' <= text[i] <= '\U{8}' then '#' else text[i])
  }

  /** On screen text read back, '#' marks the custom characters 0..7 and code 8, and every other code shows as itself. */
  lemma ShowReadOfScreen(data: seq<byte>, i: nat)
    requires i < |data|
    ensures ShowRead(ReadChars(data))[i] == '#' <==> data[i] <= 8 || data[i] == 0x23
    ensures data[i] > 8 ==> ShowRead(ReadChars(data))[i] as int == data[i] as int
  {
    ReadCharsAt(data, i);
  }

  // ---------------------------------------------------------------------
  // The session

  /** One input line's effect on the size and the calls made so far, and whether the session ends. */
  function Step(size: Size, calls: seq<Call>, input: string): (r: (Size, seq<Call>, bool))
    ensures r.2 <==> Handle(size, input) == Exit
    ensures Handle(size, input).Resize? ==> r.0 == Handle(size, input).size && r.1 == calls
    ensures !Handle(size, input).Resize? ==> r.0 == size
    ensures Handle(size, input).Invoke? ==> r.1 == calls + [Handle(size, input).call]
    ensures !Handle(size, input).Invoke? ==> r.1 == calls
  {
    match Handle(size, input)
    case Exit => (size, calls, true)
    case Resize(s) => (s, calls, false)
    case Invoke(c) => (size, calls + [c], false)
    case _ => (size, calls, false)
  }

  /** The size and calls after reading `inputs` until they run out or one is #exit. */
  function Session(size: Size, calls: seq<Call>, inputs: seq<string>): (Size, seq<Call>)
    decreases |inputs|
  {
    if inputs == [] then (size, calls)
    else
      var (s, c, exit) := Step(size, calls, inputs[0]);
      if exit then (s, c) else Session(s, c, inputs[1..])
  }

  /** A session keeps the size supported and only ever adds calls. */
  lemma {:induction false} SessionKeepsSize(size: Size, calls: seq<Call>, inputs: seq<string>)
    requires SupportedSize(size)
    ensures SupportedSize(Session(size, calls, inputs).0)
    ensures |Session(size, calls, inputs).1| >= |calls|
    ensures Session(size, calls, inputs).1[..|calls|] == calls
    decreases |inputs|
  {
    if inputs != [] {
      var (s, c, exit) := Step(size, calls, inputs[0]);
      if !exit {
        SessionKeepsSize(s, c, inputs[1..]);
        var r := Session(s, c, inputs[1..]).1;
        assert r[..|c|] == c;
        assert c[..|calls|] == calls;
        assert r[..|calls|] == r[..|c|][..|calls|];
      } else {
        assert c == calls;
      }
    }
  }

  /** Nothing after #exit is read. */
  lemma SessionStopsAtExit(size: Size, calls: seq<Call>, before: seq<string>, after: seq<string>)
    requires forall i :: 0 <= i < |before| ==> Handle(Session(size, calls, before[..i]).0, before[i]) != Exit
    ensures Session(size, calls, before + ["#exit"] + after) == Session(size, calls, before)
    decreases |before|
  {
    if before == [] {
      assert (before + ["#exit"] + after)[0] == "#exit";
      HandleCommand(size, ["#exit"]);
      assert JoinWords(["#exit"]) == "#exit";
    } else {
      var (s, c, exit) := Step(size, calls, before[0]);
      assert before[..0] == [];
      assert !exit;
      assert (before + ["#exit"] + after)[1..] == before[1..] + ["#exit"] + after;
      forall i | 0 <= i < |before[1..]|
        ensures Handle(Session(s, c, before[1..][..i]).0, before[1..][i]) != Exit
      {
        assert before[..i + 1][1..] == before[1..][..i];
        assert before[..i + 1][0] == before[0];
      }
      SessionStopsAtExit(s, c, before[1..], after);
    }
  }

  /** The command line: the display size the user has chosen and the calls made on the display interface. */
  class CommandLine {
    var size: Size
    var calls: seq<Call>

    ghost predicate Valid()
      reads this
    {
      SupportedSize(size)
    }

    constructor ()
      ensures size == InitialSize && calls == [] && Valid()
    {
      size := Size(16, 2);
      calls := [];
    }

    /** Act on one line of input; the answer says whether it was #exit. */
    method HandleInput(input: string) returns (exit: bool)
      requires Valid()
      modifies this
      ensures Valid()
      ensures (size, calls, exit) == Step(old(size), old(calls), input)
    {
      var outcome := Handle(size, input);
      exit := false;
      match outcome {
        case Exit => exit := true;
        case Resize(s) => size := s;
        case Invoke(c) => calls := calls + [c];
        case ShowHelp =>
        case Rejected(_) =>
      }
    }

    /** Read input lines until they run out or one is #exit. */
    method StartCLI(inputs: seq<string>)
      requires Valid()
      modifies this
      ensures Valid()
      ensures (size, calls) == Session(old(size), old(calls), inputs)
    {
      var i := 0;
      while i < |inputs|
        invariant 0 <= i <= |inputs| && Valid()
        invariant Session(size, calls, inputs[i..]) == Session(old(size), old(calls), inputs)
      {
        var exit := HandleInput(inputs[i]);
        if exit {
          return;
        }
        assert inputs[i..][1..] == inputs[i + 1..];
        i := i + 1;
      }
    }
  }
}
