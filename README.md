# LCD Simulator core, modelled in Dafny

This project models the core of LCDSimulator. LCDSimulator is a C# simulation of an
HD44780-style character LCD module, with a command-line front end that drives it over its
parallel bus. The model covers five pieces:

- **Display data RAM** (`ddram.dfy`, module `DisplayData`): the 80-byte store behind a
  partial address map.
  - Addresses 0..39 are the first display line.
  - Addresses 64..79 are the second line, stored 24 slots lower.
  - Every other address faults.
- **The controller's address counter** (`controller.dfy`, module `Controller`): the
  setter's normalisation rule, and the controller's default register state.
- **The host-side display interface** (`interface.dfy`, module `Interface`).
  - The instruction encoders.
  - Status decoding.
  - The cursor-position / DDRAM-address maps.
  - Custom-character translation.
  - The exact bus transactions that `Read`, `Write`, `GetCustomChar` and
    `DefineCustomChar` issue.

  The controller is an oracle: the byte it answers to a read is a function of the bus
  history and of the RS pin. `DisplayInterface` is a class whose `trace` field records
  every transaction. Each loop method is proved equal to a recursive function of its
  inputs (`ReadScreen`, `WriteFrom`, `ReceiveMany`), and lemmas state what those
  functions guarantee.
- **The command line** (`cli.dfy`, module `Cli`).
  - Tokenising and dispatch.
  - Every `#command` validator, as a `Result`-returning function from the argument
    words to the display-interface call the command makes.
  - The `size` the user chooses.
  - The read loop.

  `CommandLine` is a class with `size` and `calls` fields. Its `StartCLI` runs over a given
  list of input lines.
- **Glyph data** (`characters.dfy`, module `Characters`).
  - The 256-entry character-image table.
  - `LoadPixelData`'s target-length check.
  - The nested loop that packs a glyph image into sixteen row bytes.

`wrappers.dfy` holds `Option` and `Result`.

Bytes on the controller side are `bv8`, so masking, `|` and `(byte)` truncation are
exact. On the host side `byte` is a newtype over `0..255`, with each wrap-around written
out as `% 256`. `SecondLineStartAddress` is the constant 64: the DDRAM comment at
LCDSimulator/DDRAM.cs:27-29 says the second line starts at address 64.

Where the code departs from HD44780 behaviour, the code is followed. One example: the
address counter wraps from 79 to 0 (LCDSimulator/DisplayController.cs:36-43), where a
40-cell second line would run on to 103. A second example concerns the size check. It lets
three lines of 21 to 26 characters through, and their third line reaches into the DDRAM gap
(`ThreeLineCursorInGap`).

## Model

| member | source | states |
|---|---|---|
| DisplayData.ValidAddress | LCDSimulator/DDRAM.cs:23 | the addresses the indexer accepts, 0..39 and 64..79; ProcessAddress succeeds exactly on them |
| DisplayData.ProcessAddress | LCDSimulator/DDRAM.cs:21-33 | succeeds exactly on 0..39 and 64..79, otherwise faults with `IndexOutOfRange(address)`; 0..39 map to themselves and 64..79 to address - 24, always a slot below 56 |
| DisplayData.ProcessAddressInjective | LCDSimulator/DDRAM.cs:21-33 | two distinct valid addresses never share a slot |
| DisplayData.UnreachableSlots | LCDSimulator/DDRAM.cs:23-32 | physical slots 56..79 are never reached |
| DisplayData.ReachableSlots | LCDSimulator/DDRAM.cs:27-32 | every slot below 56 is the image of its logical address (slot, or slot + 24 from 40 on) |
| DisplayData.SecondLineCutShort | LCDSimulator/DDRAM.cs:23 | as written: 79 maps to slot 55, while 80 faults although slot 56 is free |
| DisplayData.ProcessAddressIntended | LCDSimulator/DDRAM.cs:21-33 | the corrected map accepts exactly 0..39 and 64..103 and lands inside the 80-byte store |
| DisplayData.IntendedMapBijective | LCDSimulator/DDRAM.cs:21-33 | under the corrected map each of the 80 slots has exactly one address |
| DisplayData.DDRAM.Cell | LCDSimulator/DDRAM.cs:7-19 | the indexer's value is defined exactly on valid addresses |
| DisplayData.DDRAM.constructor | LCDSimulator/DDRAM.cs:5 | a new store has 80 bytes, all 0, so every valid address reads 0 |
| DisplayData.DDRAM.Get | LCDSimulator/DDRAM.cs:9-13 | returns the cell's byte, or the fault for an invalid address |
| DisplayData.DDRAM.Set | LCDSimulator/DDRAM.cs:14-18 | succeeds on valid addresses only; afterwards that address reads the new value and every other address reads as before; a fault changes no byte |
| Controller.DisplayComponents.Value | LCDSimulator/DisplayController.cs:3-10 | the flags value is in 0..7, with bit 0 = Display, bit 1 = Cursor, bit 2 = Blink |
| Controller.ComponentsOf | LCDSimulator/DisplayController.cs:3-10 | the component set whose flags value is v |
| Controller.ComponentsRoundTrip | LCDSimulator/DisplayController.cs:3-10 | a component set and its value determine each other |
| Controller.Normalize | LCDSimulator/DisplayController.cs:28-52 | in CGRAM mode the value is kept; in DDRAM mode a 7-bit value always ends on a valid DDRAM address, and a valid address is kept |
| Controller.NormalizeAllOnes | LCDSimulator/DisplayController.cs:36-39 | low 7 bits all ones gives 79 (so 0 - 1 = 255 gives 79) |
| Controller.NormalizeAboveRange | LCDSimulator/DisplayController.cs:40-43 | otherwise, low 7 bits of 80 or more give 0 |
| Controller.NormalizeGap | LCDSimulator/DisplayController.cs:45-48 | a value in 40..63 goes to 64 with the increment flag and to 39 without it, whatever the value's origin |
| Controller.NormalizeKeepsHighBit | LCDSimulator/DisplayController.cs:36-50 | a value of 128 or more whose low 7 bits are below 80 is stored unmasked |
| Controller.NormalizeIdempotent | LCDSimulator/DisplayController.cs:33-50 | for inputs below 128, normalising twice equals normalising once |
| Controller.NextAddress | LCDSimulator/DisplayController.cs:36-48 | the reference successor on the cycle 0..39, 64..79 stays valid |
| Controller.PreviousAddress | LCDSimulator/DisplayController.cs:36-48 | the reference predecessor stays valid and is undone by NextAddress |
| Controller.NormalizeSteps | LCDSimulator/DisplayController.cs:36-48 | incrementing under the increment flag walks the valid addresses forward cyclically, jumping the gap; decrementing without the flag walks them back |
| Controller.SecondLineWrapsEarly | LCDSimulator/DisplayController.cs:36-43 | as written, stepping forward from 79 gives 0 and stepping back from 0 gives 79 |
| Controller.NormalizeIntended | LCDSimulator/DisplayController.cs:28-52 | the corrected rule keeps CGRAM values, ends 7-bit DDRAM values in 0..39 or 64..103, and keeps those |
| Controller.NormalizeIntendedSteps | LCDSimulator/DisplayController.cs:36-48 | under the corrected rule, stepping walks all 80 addresses 0..39, 64..103 cyclically |
| Controller.DisplayController.constructor | LCDSimulator/DisplayController.cs:22-72 | the default pins and registers: counter 0, not busy, increment on, no shift, no components, 8-bit bus, OneLine5x8, shift 0; the CGRAM has 64 bytes and the CGROM 4096 |
| Controller.DisplayController.SetAddressCounter | LCDSimulator/DisplayController.cs:28-52 | the stored counter is the normalised value, a valid DDRAM address for 7-bit DDRAM inputs |
| Interface.FunctionSetInstruction | LCDSimulator.CLI/DisplayInterface.cs:177-191 | high nibble 3, bit 3 = two lines, bit 2 = 5x11 font, low two bits clear |
| Interface.DisplayControlInstruction | LCDSimulator.CLI/DisplayInterface.cs:196-213 | `0b1dcb`: bit 3 set, then the display, cursor and blink bits |
| Interface.ShiftInstruction | LCDSimulator.CLI/DisplayInterface.cs:220-233 | high nibble 1, bit 3 = screen, bit 2 = right, low two bits clear |
| Interface.SetDDRAMAddressInstruction | LCDSimulator.CLI/DisplayInterface.cs:342-345 | bit 7 set, the address's low 7 bits kept |
| Interface.SetCGRAMAddressInstruction | LCDSimulator.CLI/DisplayInterface.cs:347-350 | bit 6 set, the address's bits 0..5 and 7 kept |
| Interface.EncodersInjective | LCDSimulator.CLI/DisplayInterface.cs:177-233 | Function Set, Display Control and Shift instructions are each equal exactly when their flags are, and no two of the three encoders produce the same byte |
| Interface.StatusBusy | LCDSimulator.CLI/DisplayInterface.cs:24-27 | busy is bit 7 of the status read |
| Interface.StatusAddress | LCDSimulator.CLI/DisplayInterface.cs:337-340 | the address is the status's low 7 bits, status mod 128 |
| Interface.StatusRoundTrip | LCDSimulator.CLI/DisplayInterface.cs:337-340 | busy flag and address together give the status byte back |
| Interface.PositionOf | LCDSimulator.CLI/DisplayInterface.cs:62-78 | offset (address mod 64) mod width, below the width; line below 4, odd exactly when the address is 64 or more, and 2 or more exactly when address mod 64 is at least the width |
| Interface.CursorAddress | LCDSimulator.CLI/DisplayInterface.cs:258-269 | the address SetCursorPosition sends is offset + 64 on odd lines + width on lines 2 and 3, modulo 256 |
| Interface.CursorAddressOf | LCDSimulator.CLI/DisplayInterface.cs:258-269 | without wrap-around, the address is offset + 64 for odd lines + width for lines 2 and 3 |
| Interface.CursorRoundTrip | LCDSimulator.CLI/DisplayInterface.cs:258-269 | for every size the command line allows, `GetCursorPosition` of the address `SetCursorPosition` sends is the position set |
| Interface.CursorAddressValid | LCDSimulator.CLI/DisplayInterface.cs:258-269 | on displays of at most 2 lines of 16, every position has a valid DDRAM address |
| Interface.CursorAddressIntendedValid | LCDSimulator.CLI/DisplayInterface.cs:258-269 | with the corrected DDRAM bound, every position of a supported size has a valid address, except on three lines wider than 20 |
| Interface.ThreeLineCursorInGap | LCDSimulator.CLI/DisplayInterface.cs:258-269 | 3 x 26 passes the size check, yet line 2, offset 14 is address 40, which the controller moves to 64, which reads back as line 1 |
| Interface.ReadChar | LCDSimulator.CLI/DisplayInterface.cs:101-107 | codes 0..7 become the characters 1..8 and all other codes are kept, so no read character is NUL |
| Interface.ReadChars | LCDSimulator.CLI/DisplayInterface.cs:97-108 | one character per byte read |
| Interface.CustomToCode | LCDSimulator.CLI/DisplayInterface.cs:285-290 | characters 1..8 become 0..7, all others are kept, and newline stays newline |
| Interface.CharByte | LCDSimulator.CLI/DisplayInterface.cs:293 | `(byte)c` is the code modulo 256 |
| Interface.CustomCharRoundTrip | LCDSimulator.CLI/DisplayInterface.cs:285-293 | a custom character written and read back is the same character |
| Interface.WireBytes | LCDSimulator.CLI/DisplayInterface.cs:282-294 | at most one transmitted byte per character |
| Interface.ReceiveMany | LCDSimulator.CLI/DisplayInterface.cs:97-108 | `count` data reads in a row, each answered by the device given the history so far; ReceiveManyShape states its shape and DisplayInterface.ReceiveDataBytes is proved equal to it |
| Interface.ReceiveManyShape | LCDSimulator.CLI/DisplayInterface.cs:97-108 | a run of reads yields one byte per read, each the device's answer, and extends the history by those reads only |
| Interface.ReadScreen | LCDSimulator.CLI/DisplayInterface.cs:94-110 | Read's outer loop from line `line` on: a cursor move to the line's start, `width` data reads, then the next line; DisplayInterface.Read's text and trace are stated through it (after the status read, before the address restore), and ReadScreenText, ReadScreenCount and ReadScreenLength state what it gives |
| Interface.ReadText | LCDSimulator.CLI/DisplayInterface.cs:97-109 | the text Read builds from the bytes it reads, `width` characters and a newline per line; ReadTextLength and ReadTextAt state its length and contents |
| Interface.ReadScreenText | LCDSimulator.CLI/DisplayInterface.cs:87-116 | the text the read loop builds is the line layout (`ReadText`) of the data bytes it received, and the history only grows |
| Interface.ReadScreenCount | LCDSimulator.CLI/DisplayInterface.cs:94-110 | the read loop receives `width` data bytes per line |
| Interface.ReadScreenLength | LCDSimulator.CLI/DisplayInterface.cs:94-110 | the read loop gives `width` characters and a newline per line |
| Interface.ReadLength | LCDSimulator.CLI/DisplayInterface.cs:87-116 | the text Read returns has height * (width + 1) characters |
| Interface.LinesBytesProduct | LCDSimulator.CLI/DisplayInterface.cs:94-97 | the line-by-line count equals height * width |
| Interface.ReadTextLength | LCDSimulator.CLI/DisplayInterface.cs:94-110 | `lines * width` bytes lay out as `lines * (width + 1)` characters |
| Interface.ReadTextAt | LCDSimulator.CLI/DisplayInterface.cs:94-110 | character x of line y is the read translation of byte y * width + x, and every line ends with '\n' |
| Interface.WriteStep | LCDSimulator.CLI/DisplayInterface.cs:284-300 | one character: its data is sent unless it is a newline; then the position is read back; on a newline, an offset past the width or a line change, the cursor moves to line (lastLine + 1) mod height and lastLine becomes lastLine + 1 as a byte; the data sent is that character's wire byte |
| Interface.WriteFrom | LCDSimulator.CLI/DisplayInterface.cs:282-301 | Write's loop: WriteStep for each remaining character, threading the trace and lastLine; WriteFromSendsWireBytes states what it transmits |
| Interface.WriteTrace | LCDSimulator.CLI/DisplayInterface.cs:279-302 | Write: one position read for lastLine, then WriteFrom over the message; DisplayInterface.Write is proved equal to it |
| Interface.WriteFromSendsWireBytes | LCDSimulator.CLI/DisplayInterface.cs:279-302 | over a whole message the data bytes Write transmits are exactly its wire bytes, in order: none for a newline, 0..7 for the characters 1..8 |
| Interface.WireBytesAt | LCDSimulator.CLI/DisplayInterface.cs:282-294 | without newlines, character i goes out as wire byte i, and 1..8 go out as 0..7 |
| Interface.NewlineSendsNothing | LCDSimulator.CLI/DisplayInterface.cs:291-294 | a newline is never transmitted as data |
| Interface.WriteLineCounterEscapes | LCDSimulator.CLI/DisplayInterface.cs:299 | as written, after a newline on line 1 of 2 lastLine is 2, so one character on line 0 sends the cursor on to line 1 |
| Interface.NextLine | LCDSimulator.CLI/DisplayInterface.cs:299 | the corrected line counter stays below the height and is lastLine + 1 modulo the height |
| Interface.WriteStepIntended | LCDSimulator.CLI/DisplayInterface.cs:284-300 | with the corrected counter lastLine stays below the height, and when it changes the cursor is sent to exactly that line |
| Interface.WriteStepIntendedStaysOnLine | LCDSimulator.CLI/DisplayInterface.cs:295-300 | with the corrected counter, the input that made the as-written Write move on stays on line 0 |
| Interface.DisplayInterface.ReceiveData | LCDSimulator.CLI/DisplayInterface.cs:41-53 | returns the device's answer and records one read |
| Interface.DisplayInterface.TransmitData | LCDSimulator.CLI/DisplayInterface.cs:153-162 | records one transmission |
| Interface.DisplayInterface.IsBusy | LCDSimulator.CLI/DisplayInterface.cs:24-27 | one status read; busy is its bit 7 |
| Interface.DisplayInterface.GetAddress | LCDSimulator.CLI/DisplayInterface.cs:337-340 | one status read; the address is its low 7 bits |
| Interface.DisplayInterface.GetCursorPosition | LCDSimulator.CLI/DisplayInterface.cs:62-78 | one status read; the position is PositionOf that address |
| Interface.DisplayInterface.SetDDRAMAddress | LCDSimulator.CLI/DisplayInterface.cs:342-345 | transmits the Set DDRAM Address instruction for the address |
| Interface.DisplayInterface.SetCGRAMAddress | LCDSimulator.CLI/DisplayInterface.cs:347-350 | transmits the Set CGRAM Address instruction for the address |
| Interface.DisplayInterface.SetCursorPosition | LCDSimulator.CLI/DisplayInterface.cs:258-269 | transmits Set DDRAM Address for the position's address, in byte arithmetic |
| Interface.DisplayInterface.Clear | LCDSimulator.CLI/DisplayInterface.cs:167-170 | transmits 0x01 with RS low |
| Interface.DisplayInterface.Home | LCDSimulator.CLI/DisplayInterface.cs:238-241 | transmits 0x02 with RS low |
| Interface.DisplayInterface.InitialiseDisplay | LCDSimulator.CLI/DisplayInterface.cs:177-191 | transmits Function Set, then Clear |
| Interface.DisplayInterface.DisplaySet | LCDSimulator.CLI/DisplayInterface.cs:196-213 | transmits Display Control |
| Interface.DisplayInterface.Scroll | LCDSimulator.CLI/DisplayInterface.cs:220-233 | transmits Cursor/Display Shift |
| Interface.DisplayInterface.Backlight | LCDSimulator.CLI/DisplayInterface.cs:246-249 | records the backlight change and nothing else |
| Interface.DisplayInterface.ReceiveDataBytes | LCDSimulator.CLI/DisplayInterface.cs:97-108 | `count` data reads, equal to ReceiveMany |
| Interface.DisplayInterface.Read | LCDSimulator.CLI/DisplayInterface.cs:87-116 | reads the address, reads every line from its start, and restores that address last; the text is the ReadScreen text |
| Interface.DisplayInterface.GetCustomChar | LCDSimulator.CLI/DisplayInterface.cs:127-147 | reads the address, sets CGRAM to charNumber * 8, reads 8 rows, then restores the address |
| Interface.DisplayInterface.Write | LCDSimulator.CLI/DisplayInterface.cs:279-302 | the trace is WriteTrace: one position read, then WriteStep for each character |
| Interface.DisplayInterface.DefineCustomChar | LCDSimulator.CLI/DisplayInterface.cs:313-329 | reads the address, sets CGRAM to charNumber * 8, sends the 8 rows masked to 5 bits, then restores the address |
| Interface.CharAddress | LCDSimulator.CLI/DisplayInterface.cs:319 | for character numbers 0..7 the row address is charNumber * 8, below 64 |
| Interface.CustomCharRows | LCDSimulator.CLI/DisplayInterface.cs:320-325 | one data transmission per row, the row's low 5 bits, each at most 31 |
| Interface.CustomCharRowsSent | LCDSimulator.CLI/DisplayInterface.cs:320-325 | the data bytes sent are exactly the masked rows, in order |
| Cli.SplitFromWords | LCDSimulator.CLI/CommandLine.cs:32 | every token of the split is non-empty and space-free, and the tokens together hold exactly the non-space characters |
| Cli.Split | LCDSimulator.CLI/CommandLine.cs:32 | `input.Split(' ', RemoveEmptyEntries)`: every token is non-empty and space-free, and the tokens hold exactly the line's non-space characters; SplitJoinWords is its inverse |
| Cli.SplitJoinWords | LCDSimulator.CLI/CommandLine.cs:32 | splitting words joined by single spaces gives the words back |
| Cli.SplitFirstWord | LCDSimulator.CLI/CommandLine.cs:29-33 | input beginning with a non-space has a first token that starts with that character |
| Cli.DecimalValue | LCDSimulator.CLI/CommandLine.cs:144 | the number a string of decimal digits denotes, as byte.TryParse reads it; DecimalRoundTrip makes Decimal its inverse |
| Cli.ParseByte | LCDSimulator.CLI/CommandLine.cs:144 | accepts exactly non-empty digit strings whose value is below 256, with that value |
| Cli.Decimal | LCDSimulator.CLI/CommandLine.cs:144 | the decimal text of a number is a non-empty digit string |
| Cli.DecimalRoundTrip | LCDSimulator.CLI/CommandLine.cs:144 | the value of a number's decimal text is the number |
| Cli.ParseByteDecimal | LCDSimulator.CLI/CommandLine.cs:144-150 | every byte's decimal text parses back to it |
| Cli.BinaryValue | LCDSimulator.CLI/CommandLine.cs:377 | the number a string of binary digits denotes, most significant first, as Convert.ToByte(s, 2) reads it; BinaryRoundTrip and BinaryValueBound are proved about it |
| Cli.BinaryValueBound | LCDSimulator.CLI/CommandLine.cs:377 | n binary digits have a value below 2^n |
| Cli.ParseBinary | LCDSimulator.CLI/CommandLine.cs:377 | accepts exactly non-empty '0'/'1' strings whose value is below 256, with that value |
| Cli.Binary | LCDSimulator.CLI/CommandLine.cs:543 | the binary text has the requested number of digits, all binary |
| Cli.BinaryRoundTrip | LCDSimulator.CLI/CommandLine.cs:543 | the value of a number's binary digits is the number |
| Cli.ParseBinaryEight | LCDSimulator.CLI/CommandLine.cs:536-549 | eight characters parse exactly when all are binary digits |
| Cli.ParseBinaryOfByte | LCDSimulator.CLI/CommandLine.cs:543 | every byte's eight binary digits parse back to it |
| Cli.ParseBinaryFive | LCDSimulator.CLI/CommandLine.cs:369-383 | five characters parse exactly when all are binary digits, and then to a value below 32 |
| Cli.Flag | LCDSimulator.CLI/CommandLine.cs:213-225 | "0" is false, "1" is true, anything else is refused |
| Cli.SetSizeArgs | LCDSimulator.CLI/CommandLine.cs:136-164 | accepts exactly two byte arguments, height 1..4 and width 1..40 with width * height at most 80, giving Size(width, height); the wrong count is ArgumentCount |
| Cli.InitArgs | LCDSimulator.CLI/CommandLine.cs:166-203 | accepts exactly "1"/"2" and "8"/"11", giving InitialiseDisplay(lines = "2", font = "11") |
| Cli.SetArgs | LCDSimulator.CLI/CommandLine.cs:205-256 | accepts exactly three 0/1 flags, giving DisplaySet of them; the flags are checked in order |
| Cli.NoArgs | LCDSimulator.CLI/CommandLine.cs:258-267 | a command without arguments makes its call exactly when given none |
| Cli.ScrollArgs | LCDSimulator.CLI/CommandLine.cs:280-317 | accepts exactly "c"/"s" and "l"/"r", giving Scroll(screen = "s", right = "r") |
| Cli.BacklightArgs | LCDSimulator.CLI/CommandLine.cs:319-342 | accepts exactly one 0/1 flag |
| Cli.CharIndex | LCDSimulator.CLI/CommandLine.cs:352-363 | one character whose code minus '0', cut to a byte, is at most 7; '0'..'7' give 0..7, '8' and '9' and longer or empty strings are refused |
| Cli.CharIndexWrapsAround | LCDSimulator.CLI/CommandLine.cs:358 | the byte cast also lets U+0130..U+0137 through as 0..7 |
| Cli.CustomRows | LCDSimulator.CLI/CommandLine.cs:365-384 | succeeds exactly when every remaining argument is five binary digits, giving each one's value (below 32); otherwise the first bad argument's index |
| Cli.ParseCustomRows | LCDSimulator.CLI/CommandLine.cs:365-384 | the array-filling row loop returns what CustomRows specifies |
| Cli.DefCustomArgs | LCDSimulator.CLI/CommandLine.cs:344-387 | accepts exactly nine arguments: a character index and eight 5-digit binary rows; gives DefineCustomChar with the eight row values |
| Cli.CustomIndexArgs | LCDSimulator.CLI/CommandLine.cs:414-433 | accepts exactly one argument that is a character index |
| Cli.WriteCustomArgs | LCDSimulator.CLI/CommandLine.cs:389-412 | on a valid index it writes the one-digit text of index + 1 |
| Cli.WriteCustomSendsDigit | LCDSimulator.CLI/CommandLine.cs:411 | "#write_custom 0" writes "1", which goes out as byte 0x31 and not as custom character 0 |
| Cli.SetposArgs | LCDSimulator.CLI/CommandLine.cs:454-477 | accepts exactly a line 1..height and an offset below the width, and positions at line - 1 |
| Cli.SetposRoundTrip | LCDSimulator.CLI/CommandLine.cs:454-477 | on a supported size, the address #setpos sends maps back to the accepted position by GetCursorPosition's arithmetic (the controller's clamp can still move it: see ThreeLineCursorInGap) |
| Cli.RawTxArgs | LCDSimulator.CLI/CommandLine.cs:513-552 | accepts exactly a 0/1 flag and eight binary digits, transmitting their value |
| Cli.RawRxArgs | LCDSimulator.CLI/CommandLine.cs:554-577 | accepts exactly one 0/1 flag |
| Cli.Dispatch | LCDSimulator.CLI/CommandLine.cs:36-94 | unknown words are rejected as unknown; only #exit exits; only a valid #set_size resizes, to SetSizeArgs's size |
| Cli.Handle | LCDSimulator.CLI/CommandLine.cs:21-100 | empty input is rejected; text not starting with '#' is written verbatim; every resize is to a supported size |
| Cli.HandleCommand | LCDSimulator.CLI/CommandLine.cs:29-34 | a command typed as space-separated words is dispatched on its first word with the rest as arguments |
| Cli.ShowRead | LCDSimulator.CLI/CommandLine.cs:499-510 | #read prints the characters 1..8 as '#' and every other character as itself |
| Cli.ShowReadOfScreen | LCDSimulator.CLI/CommandLine.cs:499-510 | on screen text, '#' shows exactly for codes 0..8 and '#' itself; codes above 8 show as themselves |
| Cli.Step | LCDSimulator.CLI/CommandLine.cs:19-100 | one input line: only #exit stops, only a resize changes the size, and only an invocation adds a call, exactly that call |
| Cli.Session | LCDSimulator.CLI/CommandLine.cs:17-101 | the StartCLI loop over a list of input lines: Step per line, stopping after #exit; CommandLine.StartCLI is proved equal to it |
| Cli.SessionKeepsSize | LCDSimulator.CLI/CommandLine.cs:17-101 | the size stays supported through a session, and calls are only appended |
| Cli.SessionStopsAtExit | LCDSimulator.CLI/CommandLine.cs:38-39 | nothing after the first #exit has any effect |
| Cli.CommandLine.constructor | LCDSimulator.CLI/CommandLine.cs:11 | the size starts as 16 x 2, with no calls made |
| Cli.CommandLine.HandleInput | LCDSimulator.CLI/CommandLine.cs:19-100 | the new size and calls are Step's, and the size stays supported |
| Cli.CommandLine.StartCLI | LCDSimulator.CLI/CommandLine.cs:13-102 | the final size and calls are those of the Session over the input lines |
| Characters.CharacterImagePaths | LCDSimulator/Characters.cs:13-527 | the code-to-glyph-image table, one entry per 8-bit code, 256 in all |
| Characters.CharacterTableShape | LCDSimulator/Characters.cs:13-527 | 256 entries; blank exactly for 0x00..0x20, 0x80..0xA0 and 0xFE; otherwise the "Low", "High" or "High5x10" folder by code range |
| Characters.TableEntry | LCDSimulator/Characters.cs:13-527 | each code's entry is the matching name in its segment |
| Characters.CheckPixelDataTarget | LCDSimulator/Characters.cs:529-534 | succeeds exactly when the target holds 256 * 16 = 4096 bytes, and otherwise fails naming 4096 |
| Characters.ColumnBit | LCDSimulator/Characters.cs:561 | `(byte)(1 << (8 - x))`: column 0 gives 0, columns 1..7 give bits 7..1 |
| Characters.ColumnBitAt | LCDSimulator/Characters.cs:561 | column x sets bit k exactly when x > 0 and k = 8 - x |
| Characters.RowByte | LCDSimulator/Characters.cs:555-563 | the OR of the column bits of the lit pixels among a row's first n columns; RowByteBits states its bits |
| Characters.ImageData | LCDSimulator/Characters.cs:551-566 | the sixteen row bytes of an image of at most 8 x 16, zero below the image; GetImageData is proved equal to it and ImageDataLayout states its bits |
| Characters.RowByteBits | LCDSimulator/Characters.cs:553-564 | bit k of a row is set exactly when column 8 - k is present and lit; bit 0 is never set |
| Characters.GetImageData | LCDSimulator/Characters.cs:542-567 | refuses images wider than 8 or taller than 16; otherwise the nested loops give the 16 row bytes of ImageData |
| Characters.ImageDataLayout | LCDSimulator/Characters.cs:551-564 | 16 bytes, zero below the image, and bit k of row y set exactly when pixel (8 - k, y) exists and is lit |

## Left out

- Busy-wait polling (`while (IsBusy()) {}` in ReceiveData and TransmitData) is left out: the device is taken to be idle, so these reads do not appear in the trace.
- The controller's bus state machine is not modelled: the Enable line, instruction decoding, 4-bit mode, display shift and rendering. The interface sees the controller as an oracle over the bus history.
- `SecondLineStartAddress` is taken as the constant 64, as the comment at LCDSimulator/DDRAM.cs:27-29 gives it. `IsPowered` plays no part.
- `CursorBlink.cs` is left out: it is a timer thread, so its point is timing and concurrency.
- The GUI and `Program.cs` are not part of this model. The GUI brings WPF, floating-point contrast and P/Invoke; `Program.cs` is only an entry point.
- Console output of the command line is left out: the help text, error messages, `#getpos`/`#raw_rx`/`#read_custom` printing. Commands produce `Outcome` values, and the interface calls they make are recorded as `Call` values, not executed.
- Cli.ParseByte: models `byte.TryParse` on plain digit strings only, not its leading/trailing whitespace, sign or culture forms, because those belong to the .NET library.
- Cli.ParseBinary: models `Convert.ToByte(s, 2)` on '0'/'1' strings; the library's other accepted forms are not modelled.
- `Console.ReadLine() ?? ""` is not modelled: at end of input it would loop for ever on empty lines. Cli.CommandLine.StartCLI instead reads a finite list of lines.
- The comment at LCDSimulator.CLI/CommandLine.cs:410 is not modelled as behaviour: #write_custom is modelled as its code writes.
- Characters.CheckPixelDataTarget: only LoadPixelData's length check is modelled, not its copy loop. The loop copies each glyph at offset `i * pixelDataTarget.Length`, which depends on `Array.CopyTo` throwing.
- Loading an image from disk (ImageSharp, the root folder, `Path.Join`) is left out. GetImageData takes the image as width, height and a pixel function.
- Interface.DisplayInterface.Write: requires a non-zero width and height. The source divides by them and would throw DivideByZeroException; the command line never allows zero.
- Interface.PositionOf: requires a non-zero width. With width 0, `modSecondLine % size.Width` (LCDSimulator.CLI/DisplayInterface.cs:77) throws DivideByZeroException; the command line never allows width 0.
- Interface.DisplayInterface.GetCursorPosition: requires a non-zero width, for the same division at LCDSimulator.CLI/DisplayInterface.cs:77.
- Interface.DisplayInterface.DefineCustomChar: requires at least eight rows. The source indexes `pixels[0..7]` and throws on a shorter array; the command line always passes eight.
- Characters outside the Basic Multilingual Plane are not modelled: Dafny's `char` is a Unicode scalar value, C#'s a UTF-16 unit.

## Findings

The operations themselves (the DDRAM indexer, the counter setter, Write) follow the code as written, since the rest of the simulator depends on that behaviour. Each corrected member stands beside its operation, with the intended property proved about it (`IntendedMapBijective`, `NormalizeIntendedSteps`, `WriteStepIntendedStaysOnLine`).

| source | as written | input that shows it | evidently intended | confidence | as-written member | corrected member |
|---|---|---|---|---|---|---|
| LCDSimulator/DDRAM.cs:23 | addresses of 80 and above fault, so the second line (64..) holds only 16 cells and slots 56..79 of the 80-byte store are unusable | address 80: faults, yet 80 - 24 = 56 is a free slot | the second 40-byte line spans 64..103 and fills slots 40..79 | not executed | DisplayData.SecondLineCutShort | DisplayData.ProcessAddressIntended |
| LCDSimulator/DisplayController.cs:36-43 | the counter wraps to 0 once its low 7 bits reach 80, and to 79 from all ones | counter 79 + 1 with increment on: becomes 0 instead of 80 | the wrap points are 104 and 103, at the end of a 40-cell second line | not executed | Controller.SecondLineWrapsEarly | Controller.NormalizeIntended |
| LCDSimulator.CLI/DisplayInterface.cs:299 | `++lastLine` is never reduced modulo the height, so after wrapping to line 0 the read-back line differs from lastLine | 16 x 2, a newline on line 1 (lastLine becomes 2, cursor to line 0), then 'a' read back at line 0, offset 1: the cursor jumps to line 1 | lastLine becomes (lastLine + 1) mod height | not executed | Interface.WriteLineCounterEscapes | Interface.WriteStepIntended |
