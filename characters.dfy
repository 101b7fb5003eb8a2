/** The character glyph images of the simulated controller's character generator ROM and
 *  the packing of one glyph image into the sixteen row bytes the controller reads. */
module Characters {
  import opened Wrappers

  const MaximumImageWidth: nat := 8
  const MaximumImageHeight: nat := 16

  /** Where the image for one character code lives: nothing ("Blank") or a file in a
   *  folder of the character image directory. */
  datatype ImagePath = Blank | Joined(folder: string, name: string)

  /** Image names of codes 0x21..0x7F, in folder "Low". */
  const LowNames: seq<string> := [
      "Exclamation", // 0x21
      "QuoteDouble", // 0x22
      "Hash", // 0x23
      "Dollar", // 0x24
      "Percent", // 0x25
      "Ampersand", // 0x26
      "QuoteSingle", // 0x27
      "BracketOpen", // 0x28
      "BracketClose", // 0x29
      "Asterisk", // 0x2A
      "Plus", // 0x2B
      "Comma", // 0x2C
      "Dash", // 0x2D
      "Dot", // 0x2E
      "Slash", // 0x2F
      "0", // 0x30
      "1", // 0x31
      "2", // 0x32
      "3", // 0x33
      "4", // 0x34
      "5", // 0x35
      "6", // 0x36
      "7", // 0x37
      "8", // 0x38
      "9", // 0x39
      "Colon", // 0x3A
      "Semicolon", // 0x3B
      "LessThan", // 0x3C
      "Equals", // 0x3D
      "GreaterThan", // 0x3E
      "Question", // 0x3F
      "At", // 0x40
      "A", // 0x41
      "B", // 0x42
      "C", // 0x43
      "D", // 0x44
      "E", // 0x45
      "F", // 0x46
      "G", // 0x47
      "H", // 0x48
      "I", // 0x49
      "J", // 0x4A
      "K", // 0x4B
      "L", // 0x4C
      "M", // 0x4D
      "N", // 0x4E
      "O", // 0x4F
      "P", // 0x50
      "Q", // 0x51
      "R", // 0x52
      "S", // 0x53
      "T", // 0x54
      "U", // 0x55
      "V", // 0x56
      "W", // 0x57
      "X", // 0x58
      "Y", // 0x59
      "Z", // 0x5A
      "SquareBracketOpen", // 0x5B
      "Yen", // 0x5C
      "SquareBracketClose", // 0x5D
      "Caret", // 0x5E
      "Underscore", // 0x5F
      "Backtick", // 0x60
      "A-", // 0x61
      "B-", // 0x62
      "C-", // 0x63
      "D-", // 0x64
      "E-", // 0x65
      "F-", // 0x66
      "G-", // 0x67
      "H-", // 0x68
      "I-", // 0x69
      "J-", // 0x6A
      "K-", // 0x6B
      "L-", // 0x6C
      "M-", // 0x6D
      "N-", // 0x6E
      "O-", // 0x6F
      "P-", // 0x70
      "Q-", // 0x71
      "R-", // 0x72
      "S-", // 0x73
      "T-", // 0x74
      "U-", // 0x75
      "V-", // 0x76
      "W-", // 0x77
      "X-", // 0x78
      "Y-", // 0x79
      "Z-", // 0x7A
      "CurlyBracketOpen", // 0x7B
      "Pipe", // 0x7C
      "CurlyBracketClose", // 0x7D
      "ArrowRight", // 0x7E
      "ArrowLeft" // 0x7F
    ]

  /** Image names of codes 0xA1..0xDF, in folder "High". */
  const HighNames: seq<string> := [
      "Dot", // 0xA1
      "QuoteOpen", // 0xA2
      "QuoteClose", // 0xA3
      "Comma", // 0xA4
      "Interpunct", // 0xA5
      "Wo", // 0xA6
      "ASmall", // 0xA7
      "ISmall", // 0xA8
      "USmall", // 0xA9
      "ESmall", // 0xAA
      "OSmall", // 0xAB
      "YaSmall", // 0xAC
      "YuSmall", // 0xAD
      "YoSmall", // 0xAE
      "TsuSmall", // 0xAF
      "Dash", // 0xB0
      "A", // 0xB1
      "I", // 0xB2
      "U", // 0xB3
      "E", // 0xB4
      "O", // 0xB5
      "Ka", // 0xB6
      "Ki", // 0xB7
      "Ku", // 0xB8
      "Ke", // 0xB9
      "Ko", // 0xBA
      "Sa", // 0xBB
      "Shi", // 0xBC
      "Su", // 0xBD
      "Se", // 0xBE
      "So", // 0xBF
      "Ta", // 0xC0
      "Chi", // 0xC1
      "Tsu", // 0xC2
      "Te", // 0xC3
      "To", // 0xC4
      "Na", // 0xC5
      "Ni", // 0xC6
      "Nu", // 0xC7
      "Ne", // 0xC8
      "No", // 0xC9
      "Ha", // 0xCA
      "Hi", // 0xCB
      "Fu", // 0xCC
      "He", // 0xCD
      "Ho", // 0xCE
      "Ma", // 0xCF
      "Mi", // 0xD0
      "Mu", // 0xD1
      "Me", // 0xD2
      "Mo", // 0xD3
      "Ya", // 0xD4
      "Yu", // 0xD5
      "Yo", // 0xD6
      "Ra", // 0xD7
      "Ri", // 0xD8
      "Ru", // 0xD9
      "Re", // 0xDA
      "Ro", // 0xDB
      "Wa", // 0xDC
      "N", // 0xDD
      "Dakuten", // 0xDE
      "Handakuten" // 0xDF
    ]

  /** Image names of codes 0xE0..0xFD, in folder "High5x10" (code 0xFF, "Block", follows
   *  the blank code 0xFE). */
  const High5x10Names: seq<string> := [
      "Alpha", // 0xE0
      "AUmlaut", // 0xE1
      "Beta", // 0xE2
      "Epsilon", // 0xE3
      "Mu", // 0xE4
      "Sigma", // 0xE5
      "Rho", // 0xE6
      "G", // 0xE7
      "SquareRoot", // 0xE8
      "SuperscriptNegative1", // 0xE9
      "J", // 0xEA
      "SuperscriptAsterisk", // 0xEB
      "Cent", // 0xEC
      "Pound", // 0xED
      "NTilde", // 0xEE
      "OUmlaut", // 0xEF
      "P", // 0xF0
      "Q", // 0xF1
      "Theta", // 0xF2
      "Infinity", // 0xF3
      "Omega", // 0xF4
      "UUmlaut", // 0xF5
      "SigmaLarge", // 0xF6
      "Pi", // 0xF7
      "XMean", // 0xF8
      "Y", // 0xF9
      "Thousand", // 0xFA
      "TenThousand", // 0xFB
      "Yen", // 0xFC
      "Divide" // 0xFD
    ]

  function Blanks(n: nat): (r: seq<ImagePath>)
    ensures |r| == n && forall i :: 0 <= i < n ==> r[i] == Blank
  {
    seq(n, _ => Blank)
  }

  function InFolder(folder: string, names: seq<string>): (r: seq<ImagePath>)
    ensures |r| == |names|
    ensures forall i :: 0 <= i < |names| ==> r[i] == Joined(folder, names[i])
  {
    seq(|names|, i requires 0 <= i < |names| => Joined(folder, names[i]))
  }

  /** The image for every character code 0x00..0xFF, indexed by code, in the table's own
   *  order: the control codes 0x00..0x20 and 0x80..0xA0 have no glyph, nor has 0xFE. */
  function CharacterImagePaths(): (t: seq<ImagePath>)
    ensures |t| == 256
  {
    NameCounts();
    LowerCodes + UpperCodes + TallCodes
  }

  /** Codes 0x00..0x7F. */
  const LowerCodes: seq<ImagePath> := Blanks(0x21) + InFolder("Low", LowNames)

  /** Codes 0x80..0xDF. */
  const UpperCodes: seq<ImagePath> := Blanks(0x21) + InFolder("High", HighNames)

  /** Codes 0xE0..0xFF. */
  const TallCodes: seq<ImagePath> := InFolder("High5x10", High5x10Names) + [Blank, Joined("High5x10", "Block")]

  /** The image folder a code's glyph lives in: the lower half of the table is "Low", the
   *  upper half "High", with the 5x10 glyphs from 0xE0 on; codes without a glyph have
   *  none. */
  function FolderOf(code: nat): Option<string>
  {
    if code <= 0x20 || 0x80 <= code <= 0xA0 || code == 0xFE then None
    else if code < 0x80 then Some("Low")
    else if code < 0xE0 then Some("High")
    else Some("High5x10")
  }

  /** The table has an entry for every 8-bit character code, and each entry agrees with
   *  FolderOf: blank exactly on the control ranges and 0xFE, otherwise in the folder for
   *  its half of the table. */
  lemma CharacterTableShape()
    ensures |CharacterImagePaths()| == 256
    ensures forall code :: 0 <= code < 256 ==>
      (CharacterImagePaths()[code].Blank? <==> FolderOf(code).None?)
    ensures forall code :: 0 <= code < 256 && CharacterImagePaths()[code].Joined? ==>
      FolderOf(code) == Some(CharacterImagePaths()[code].folder)
  {
    var t := CharacterImagePaths();
    forall code | 0 <= code < 256
      ensures t[code].Blank? <==> FolderOf(code).None?
      ensures t[code].Joined? ==> FolderOf(code) == Some(t[code].folder)
    {
      TableEntry(code);
    }
  }

  lemma AtAppend(a: seq<ImagePath>, b: seq<ImagePath>, i: nat)
    requires i < |a| + |b|
    ensures i < |a| ==> (a + b)[i] == a[i]
    ensures |a| <= i ==> (a + b)[i] == b[i - |a|]
  {
  }

  lemma NameCounts()
    ensures |LowNames| == 95 && |HighNames| == 63 && |High5x10Names| == 30
  {
  }

  /** Entry `code` of the table, read off the segment it falls in. */
  lemma TableEntry(code: nat)
    requires code < 256
    ensures |CharacterImagePaths()| == 256
    ensures code <= 0x20 ==> CharacterImagePaths()[code] == Blank
    ensures 0x21 <= code < 0x80 ==> CharacterImagePaths()[code] == Joined("Low", LowNames[code - 0x21])
    ensures 0x80 <= code <= 0xA0 ==> CharacterImagePaths()[code] == Blank
    ensures 0xA1 <= code < 0xE0 ==> CharacterImagePaths()[code] == Joined("High", HighNames[code - 0xA1])
    ensures 0xE0 <= code < 0xFE ==> CharacterImagePaths()[code] == Joined("High5x10", High5x10Names[code - 0xE0])
    ensures code == 0xFE ==> CharacterImagePaths()[code] == Blank
    ensures code == 0xFF ==> CharacterImagePaths()[code] == Joined("High5x10", "Block")
  {
    NameCounts();
    assert |LowerCodes| == 0x80 && |UpperCodes| == 0x60 && |TallCodes| == 0x20;
    AtAppend(LowerCodes + UpperCodes, TallCodes, code);
    if code < 0xE0 {
      AtAppend(LowerCodes, UpperCodes, code);
    }
    if code < 0x80 {
      AtAppend(Blanks(0x21), InFolder("Low", LowNames), code);
    } else if code < 0xE0 {
      AtAppend(Blanks(0x21), InFolder("High", HighNames), code - 0x80);
    } else {
      AtAppend(InFolder("High5x10", High5x10Names), [Blank, Joined("High5x10", "Block")], code - 0xE0);
    }
  }

  /** The reasons loading glyph data fails. */
  datatype GlyphError =
    | TargetTooShort(required: nat)  // the pixel data target cannot hold every glyph
    | ImageTooLarge                  // a glyph image is wider than 8 or taller than 16

  /** The length check LoadPixelData performs before copying any glyph: the target must
   *  hold 16 bytes for every entry of the table. */
  function CheckPixelDataTarget(targetLength: nat): (r: Result<(), GlyphError>)
    ensures r.Ok? <==> targetLength >= 256 * MaximumImageHeight
    ensures r.Err? ==> r.error == TargetTooShort(4096)
  {
    CharacterTableShape();
    if targetLength < |CharacterImagePaths()| * 16 then Err(TargetTooShort(|CharacterImagePaths()| * 16))
    else Ok(())
  }

  /** A 24-bit colour pixel. */
  datatype Rgb24 = Rgb24(r: bv8, g: bv8, b: bv8)

  /** A loaded glyph image: its size and the pixel at each (x, y), indexed from the top
   *  left. */
  datatype Image = Image(width: nat, height: nat, pixel: (nat, nat) -> Rgb24)

  /** A pixel is lit when any colour channel is non-zero. */
  predicate Lit(p: Rgb24)
  {
    p.r > 0 || p.g > 0 || p.b > 0
  }

  /** The bit a lit pixel in column x sets in its row byte: `1 << (8 - x)` cut to a
   *  byte, so column 0 (bit 8) is lost and columns 1..7 land on bits 7..1. */
  function ColumnBit(x: nat): (r: bv8)
    requires x < MaximumImageWidth
    ensures x == 0 ==> r == 0
    ensures 0 < x ==> r == (1 as bv8) << (8 - x)
  {
    ((1 as bv16 << (MaximumImageWidth - x)) & 0xFF) as bv8
  }

  /** The row byte of row y built from the first n columns of the image. */
  function RowByte(image: Image, y: nat, n: nat): bv8
    requires n <= MaximumImageWidth
  {
    if n == 0 then 0
    else if Lit(image.pixel(n - 1, y)) then RowByte(image, y, n - 1) | ColumnBit(n - 1)
    else RowByte(image, y, n - 1)
  }

  /** The sixteen row bytes of a glyph image no larger than 8 by 16: rows below the image
   *  stay 0. */
  function ImageData(image: Image): seq<bv8>
    requires image.width <= MaximumImageWidth && image.height <= MaximumImageHeight
  {
    seq(MaximumImageHeight, y requires 0 <= y < MaximumImageHeight =>
      if y < image.height then RowByte(image, y, image.width) else 0)
  }

  /** Packs a glyph image into its row bytes, refusing images larger than 8 by 16. */
  method GetImageData(image: Image) returns (r: Result<seq<bv8>, GlyphError>)
    ensures r.Err? <==> image.width > MaximumImageWidth || image.height > MaximumImageHeight
    ensures r.Err? ==> r.error == ImageTooLarge
    ensures r.Ok? ==> |r.value| == MaximumImageHeight && r.value == ImageData(image)
  {
    if image.width > MaximumImageWidth || image.height > MaximumImageHeight {
      return Err(ImageTooLarge);
    }
    var data := new bv8[MaximumImageHeight](_ => 0);
    for y := 0 to image.height
      invariant forall j :: 0 <= j < y ==> data[j] == RowByte(image, j, image.width)
      invariant forall j :: y <= j < MaximumImageHeight ==> data[j] == 0
    {
      for x := 0 to image.width
        invariant data[y] == RowByte(image, y, x)
        invariant forall j :: 0 <= j < y ==> data[j] == RowByte(image, j, image.width)
        invariant forall j :: y < j < MaximumImageHeight ==> data[j] == 0
      {
        ghost var before := data[y];
        var pixel := image.pixel(x, y);
        if pixel.r > 0 || pixel.g > 0 || pixel.b > 0 {
          data[y] := data[y] | ColumnBit(x);
        }
        RowByteStep(image, y, x, before, data[y]);
      }
    }
    assert forall j :: 0 <= j < MaximumImageHeight ==> data[..][j] == ImageData(image)[j];
    return Ok(data[..]);
  }

  /** One column more: a lit pixel ORs in its column bit, an unlit one leaves the row alone. */
  lemma RowByteStep(image: Image, y: nat, x: nat, before: bv8, after: bv8)
    requires x < MaximumImageWidth && before == RowByte(image, y, x)
    requires Lit(image.pixel(x, y)) ==> after == before | ColumnBit(x)
    requires !Lit(image.pixel(x, y)) ==> after == before
    ensures after == RowByte(image, y, x + 1)
  {
  }

  /** Bit k of a row byte built from the first n columns is set exactly when column
   *  8 - k is among them and lit; bit 0 is never set. */
  lemma {:induction false} RowByteBits(image: Image, y: nat, n: nat, k: nat)
    requires n <= MaximumImageWidth && k < 8
    ensures (RowByte(image, y, n) >> k) & 1 == 1 <==>
      (0 < k && 8 - k < n && Lit(image.pixel(8 - k, y)))
  {
    if n > 0 {
      RowByteBits(image, y, n - 1, k);
      ColumnBitAt(n - 1, k);
      OrBit(RowByte(image, y, n - 1), ColumnBit(n - 1), k);
    }
  }

  lemma ColumnBitAt(x: nat, k: nat)
    requires x < MaximumImageWidth && k < 8
    ensures (ColumnBit(x) >> k) & 1 == 1 <==> (0 < x && k == 8 - x)
  {
  }

  lemma OrBit(a: bv8, b: bv8, k: nat)
    requires k < 8
    ensures ((a | b) >> k) & 1 == 1 <==> (a >> k) & 1 == 1 || (b >> k) & 1 == 1
  {
  }

  /** The packed row bytes of a glyph image: sixteen of them, zero below the image, bit 0
   *  always clear, and for every column x from 1 the bit 8 - x of row y set exactly when
   *  pixel (x, y) is lit. */
  lemma ImageDataLayout(image: Image, y: nat, k: nat)
    requires image.width <= MaximumImageWidth && image.height <= MaximumImageHeight
    requires y < MaximumImageHeight && k < 8
    ensures |ImageData(image)| == MaximumImageHeight
    ensures image.height <= y ==> ImageData(image)[y] == 0
    ensures (ImageData(image)[y] >> k) & 1 == 1 <==>
      (y < image.height && 0 < k && 8 - k < image.width && Lit(image.pixel(8 - k, y)))
  {
    RowByteBits(image, y, image.width, k);
  }
}
