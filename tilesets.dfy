/**
 * The two grid tilesets: the 256-glyph CP437 sheet on a 16-column grid and the
 * Unicode sheet (seven contiguous blocks, 895 characters) on a 32-column grid,
 * each with 38 x 64 pixel tiles, every glyph centred in its tile and drawn in
 * opaque white; plus the font lookup both use and their character maps.
 */
module Tilesets {
  import opened Grid
  import opened Fonts
  import opened Drawing
  import Charmap

  const TileWidth: nat := 38
  const TileHeight: nat := 64
  const Cp437TilesPerRow: nat := 16
  const UnicodeTilesPerRow: nat := 32
  const FontSize: nat := 58

  /** DEFAULT_COLOR (255, 255, 255) with full alpha. */
  const Fill := Rgba(255, 255, 255, 255)

  /** Candidate monospace fonts, best first. */
  const FontPaths: seq<string> := [
    "/usr/share/fonts/truetype/dejavu/DejaVuSansMono.ttf",
    "/System/Library/Fonts/Menlo.ttc",
    "/System/Library/Fonts/Courier.ttc",
    "/usr/share/fonts/truetype/liberation/LiberationMono-Regular.ttf",
    "C:\\Windows\\Fonts\\DejaVuSansMono.ttf",
    "C:\\Windows\\Fonts\\consola.ttf"
  ]

  // ---------------------------------------------------------------------------
  // CP437
  // ---------------------------------------------------------------------------

  /** The code points CP437 shows for bytes 0x00-0x1F. */
  const Cp437Low: seq<int> := [
    0x0000, 0x263A, 0x263B, 0x2665, 0x2666, 0x2663, 0x2660, 0x2022,
    0x25D8, 0x25CB, 0x25D9, 0x2642, 0x2640, 0x266A, 0x266B, 0x263C,
    0x25BA, 0x25C4, 0x2195, 0x203C, 0x00B6, 0x00A7, 0x25AC, 0x21A8,
    0x2191, 0x2193, 0x2192, 0x2190, 0x221F, 0x2194, 0x25B2, 0x25BC
  ]

  /** The code points CP437 shows for bytes 0x80-0xFF, written in four quarters of 32. */
  const Cp437High: seq<int> := Cp437High0 + Cp437High1 + Cp437High2 + Cp437High3

  const Cp437High0: seq<int> := [
    0x00C7, 0x00FC, 0x00E9, 0x00E2, 0x00E4, 0x00E0, 0x00E5, 0x00E7,
    0x00EA, 0x00EB, 0x00E8, 0x00EF, 0x00EE, 0x00EC, 0x00C4, 0x00C5,
    0x00C9, 0x00E6, 0x00C6, 0x00F4, 0x00F6, 0x00F2, 0x00FB, 0x00F9,
    0x00FF, 0x00D6, 0x00DC, 0x00A2, 0x00A3, 0x00A5, 0x20A7, 0x0192
  ]

  const Cp437High1: seq<int> := [
    0x00E1, 0x00ED, 0x00F3, 0x00FA, 0x00F1, 0x00D1, 0x00AA, 0x00BA,
    0x00BF, 0x2310, 0x00AC, 0x00BD, 0x00BC, 0x00A1, 0x00AB, 0x00BB,
    0x2591, 0x2592, 0x2593, 0x2502, 0x2524, 0x2561, 0x2562, 0x2556,
    0x2555, 0x2563, 0x2551, 0x2557, 0x255D, 0x255C, 0x255B, 0x2510
  ]

  const Cp437High2: seq<int> := [
    0x2514, 0x2534, 0x252C, 0x251C, 0x2500, 0x253C, 0x255E, 0x255F,
    0x255A, 0x2554, 0x2569, 0x2566, 0x2560, 0x2550, 0x256C, 0x2567,
    0x2568, 0x2564, 0x2565, 0x2559, 0x2558, 0x2552, 0x2553, 0x256B,
    0x256A, 0x2518, 0x250C, 0x2588, 0x2584, 0x258C, 0x2590, 0x2580
  ]

  const Cp437High3: seq<int> := [
    0x03B1, 0x00DF, 0x0393, 0x03C0, 0x03A3, 0x03C3, 0x00B5, 0x03C4,
    0x03A6, 0x0398, 0x03A9, 0x03B4, 0x221E, 0x03C6, 0x03B5, 0x2229,
    0x2261, 0x00B1, 0x2265, 0x2264, 0x2320, 0x2321, 0x00F7, 0x2248,
    0x00B0, 0x2219, 0x00B7, 0x221A, 0x207F, 0x00B2, 0x25A0, 0x00A0
  ]

  predicate OutsideAscii(s: seq<int>)
  {
    forall k :: 0 <= k < |s| ==> (s[k] < 0x20 || 0x80 <= s[k]) && 0 <= s[k] < 0xD800
  }

  lemma Cp437Quarter0OutsideAscii()
    ensures |Cp437High0| == 32 && OutsideAscii(Cp437High0)
  {
  }

  lemma Cp437Quarter1OutsideAscii()
    ensures |Cp437High1| == 32 && OutsideAscii(Cp437High1)
  {
  }

  lemma Cp437Quarter2OutsideAscii()
    ensures |Cp437High2| == 32 && OutsideAscii(Cp437High2)
  {
  }

  lemma Cp437Quarter3OutsideAscii()
    ensures |Cp437High3| == 32 && OutsideAscii(Cp437High3)
  {
  }

  /** range(lo, hi) as a list of code points. */
  function CodepointRange(lo: int, hi: int): seq<int>
    requires lo <= hi
  {
    seq(hi - lo, k => lo + k)
  }

  /** Code point of each CP437 byte: the 32 control glyphs, the ASCII range 0x20-0x7F as itself, the upper half. */
  function Cp437Map(): seq<int>
  {
    Cp437Low + CodepointRange(0x20, 0x80) + Cp437High
  }

  lemma Cp437OutsideAscii()
    ensures |Cp437Low| == 32 && OutsideAscii(Cp437Low)
    ensures |Cp437High| == 128 && OutsideAscii(Cp437High)
  {
    Cp437Quarter0OutsideAscii();
    Cp437Quarter1OutsideAscii();
    Cp437Quarter2OutsideAscii();
    Cp437Quarter3OutsideAscii();
  }

  /**
   * The table has 256 entries; bytes 0x20-0x7F map to themselves and no other byte maps to a
   * code point in the ASCII range 0x20-0x7F; every entry is a character below U+D800; the grid has 16 rows.
   */
  lemma Cp437MapShape()
    ensures |Cp437Map()| == 256
    ensures forall i :: 0x20 <= i < 0x80 ==> Cp437Map()[i] == i
    ensures forall i :: 0 <= i < 256 && 0x20 <= Cp437Map()[i] < 0x80 ==> Cp437Map()[i] == i
    ensures forall i :: 0 <= i < 256 ==> 0 <= Cp437Map()[i] < 0xD800
    ensures Rows(|Cp437Map()|, Cp437TilesPerRow) == 16
  {
    var low, ascii, high := Cp437Low, CodepointRange(0x20, 0x80), Cp437High;
    var m := Cp437Map();
    Cp437OutsideAscii();
    assert m == low + ascii + high;
    forall i | 0 <= i < 256
      ensures 0x20 <= i < 0x80 ==> m[i] == i
      ensures 0x20 <= m[i] < 0x80 ==> m[i] == i
      ensures 0 <= m[i] < 0xD800
    {
      if i < 32 {
        assert m[i] == low[i];
      } else if i < 128 {
        assert m[i] == ascii[i - 32];
      } else {
        assert m[i] == high[i - 128];
      }
    }
  }

  /** CP437_CHARS: the character of each code point of the table, in byte order. */
  function Cp437Chars(): seq<char>
  {
    Cp437MapShape();
    seq(256, i requires 0 <= i < 256 => Cp437Map()[i] as char)
  }

  /**
   * The byte whose glyph is code point cp, or -1 when no byte shows cp: the table read
   * backwards, as a search over the table's code points in ascending order.
   */
  function Cp437Byte(cp: int): int
  {
    if 0x20 <= cp < 0x80 then cp else
    if cp < 0x2219 then
      if cp < 0x00EB then
        if cp < 0x00BF then
          if cp < 0x00AB then
            if cp < 0x00A3 then
              if cp == 0x0000 then 0x00 else if cp == 0x00A0 then 0xFF
              else if cp == 0x00A1 then 0xAD else if cp == 0x00A2 then 0x9B else -1
            else
              if cp == 0x00A3 then 0x9C else if cp == 0x00A5 then 0x9D
              else if cp == 0x00A7 then 0x15 else if cp == 0x00AA then 0xA6 else -1
          else
            if cp < 0x00B2 then
              if cp == 0x00AB then 0xAE else if cp == 0x00AC then 0xAA
              else if cp == 0x00B0 then 0xF8 else if cp == 0x00B1 then 0xF1 else -1
            else
              if cp < 0x00BA then
                if cp == 0x00B2 then 0xFD else if cp == 0x00B5 then 0xE6
                else if cp == 0x00B6 then 0x14 else if cp == 0x00B7 then 0xFA else -1
              else
                if cp == 0x00BA then 0xA7 else if cp == 0x00BB then 0xAF
                else if cp == 0x00BC then 0xAC else if cp == 0x00BD then 0xAB else -1
        else
          if cp < 0x00DC then
            if cp < 0x00C7 then
              if cp == 0x00BF then 0xA8 else if cp == 0x00C4 then 0x8E
              else if cp == 0x00C5 then 0x8F else if cp == 0x00C6 then 0x92 else -1
            else
              if cp == 0x00C7 then 0x80 else if cp == 0x00C9 then 0x90
              else if cp == 0x00D1 then 0xA5 else if cp == 0x00D6 then 0x99 else -1
          else
            if cp < 0x00E2 then
              if cp == 0x00DC then 0x9A else if cp == 0x00DF then 0xE1
              else if cp == 0x00E0 then 0x85 else if cp == 0x00E1 then 0xA0 else -1
            else
              if cp < 0x00E7 then
                if cp == 0x00E2 then 0x83 else if cp == 0x00E4 then 0x84
                else if cp == 0x00E5 then 0x86 else if cp == 0x00E6 then 0x91 else -1
              else
                if cp == 0x00E7 then 0x87 else if cp == 0x00E8 then 0x8A
                else if cp == 0x00E9 then 0x82 else if cp == 0x00EA then 0x88 else -1
      else
        if cp < 0x03A6 then
          if cp < 0x00F4 then
            if cp < 0x00EF then
              if cp == 0x00EB then 0x89 else if cp == 0x00EC then 0x8D
              else if cp == 0x00ED then 0xA1 else if cp == 0x00EE then 0x8C else -1
            else
              if cp == 0x00EF then 0x8B else if cp == 0x00F1 then 0xA4
              else if cp == 0x00F2 then 0x95 else if cp == 0x00F3 then 0xA2 else -1
          else
            if cp < 0x00FA then
              if cp == 0x00F4 then 0x93 else if cp == 0x00F6 then 0x94
              else if cp == 0x00F7 then 0xF6 else if cp == 0x00F9 then 0x97 else -1
            else
              if cp < 0x0192 then
                if cp == 0x00FA then 0xA3 else if cp == 0x00FB then 0x96
                else if cp == 0x00FC then 0x81 else if cp == 0x00FF then 0x98 else -1
              else
                if cp == 0x0192 then 0x9F else if cp == 0x0393 then 0xE2
                else if cp == 0x0398 then 0xE9 else if cp == 0x03A3 then 0xE4 else -1
        else
          if cp < 0x03C6 then
            if cp < 0x03B5 then
              if cp == 0x03A6 then 0xE8 else if cp == 0x03A9 then 0xEA
              else if cp == 0x03B1 then 0xE0 else if cp == 0x03B4 then 0xEB else -1
            else
              if cp == 0x03B5 then 0xEE else if cp == 0x03C0 then 0xE3
              else if cp == 0x03C3 then 0xE5 else if cp == 0x03C4 then 0xE7 else -1
          else
            if cp < 0x20A7 then
              if cp == 0x03C6 then 0xED else if cp == 0x2022 then 0x07
              else if cp == 0x203C then 0x13 else if cp == 0x207F then 0xFC else -1
            else
              if cp < 0x2193 then
                if cp == 0x20A7 then 0x9E else if cp == 0x2190 then 0x1B
                else if cp == 0x2191 then 0x18 else if cp == 0x2192 then 0x1A else -1
              else
                if cp == 0x2193 then 0x19 else if cp == 0x2194 then 0x1D
                else if cp == 0x2195 then 0x12 else if cp == 0x21A8 then 0x17 else -1
    else
      if cp < 0x2561 then
        if cp < 0x252C then
          if cp < 0x2265 then
            if cp < 0x2229 then
              if cp == 0x2219 then 0xF9 else if cp == 0x221A then 0xFB
              else if cp == 0x221E then 0xEC else if cp == 0x221F then 0x1C else -1
            else
              if cp == 0x2229 then 0xEF else if cp == 0x2248 then 0xF7
              else if cp == 0x2261 then 0xF0 else if cp == 0x2264 then 0xF3 else -1
          else
            if cp < 0x2500 then
              if cp == 0x2265 then 0xF2 else if cp == 0x2310 then 0xA9
              else if cp == 0x2320 then 0xF4 else if cp == 0x2321 then 0xF5 else -1
            else
              if cp < 0x2514 then
                if cp == 0x2500 then 0xC4 else if cp == 0x2502 then 0xB3
                else if cp == 0x250C then 0xDA else if cp == 0x2510 then 0xBF else -1
              else
                if cp == 0x2514 then 0xC0 else if cp == 0x2518 then 0xD9
                else if cp == 0x251C then 0xC3 else if cp == 0x2524 then 0xB4 else -1
        else
          if cp < 0x2555 then
            if cp < 0x2551 then
              if cp == 0x252C then 0xC2 else if cp == 0x2534 then 0xC1
              else if cp == 0x253C then 0xC5 else if cp == 0x2550 then 0xCD else -1
            else
              if cp == 0x2551 then 0xBA else if cp == 0x2552 then 0xD5
              else if cp == 0x2553 then 0xD6 else if cp == 0x2554 then 0xC9 else -1
          else
            if cp < 0x2559 then
              if cp == 0x2555 then 0xB8 else if cp == 0x2556 then 0xB7
              else if cp == 0x2557 then 0xBB else if cp == 0x2558 then 0xD4 else -1
            else
              if cp < 0x255D then
                if cp == 0x2559 then 0xD3 else if cp == 0x255A then 0xC8
                else if cp == 0x255B then 0xBE else if cp == 0x255C then 0xBD else -1
              else
                if cp == 0x255D then 0xBC else if cp == 0x255E then 0xC6
                else if cp == 0x255F then 0xC7 else if cp == 0x2560 then 0xCC else -1
      else
        if cp < 0x25A0 then
          if cp < 0x2569 then
            if cp < 0x2565 then
              if cp == 0x2561 then 0xB5 else if cp == 0x2562 then 0xB6
              else if cp == 0x2563 then 0xB9 else if cp == 0x2564 then 0xD1 else -1
            else
              if cp == 0x2565 then 0xD2 else if cp == 0x2566 then 0xCB
              else if cp == 0x2567 then 0xCF else if cp == 0x2568 then 0xD0 else -1
          else
            if cp < 0x2580 then
              if cp == 0x2569 then 0xCA else if cp == 0x256A then 0xD8
              else if cp == 0x256B then 0xD7 else if cp == 0x256C then 0xCE else -1
            else
              if cp < 0x2590 then
                if cp == 0x2580 then 0xDF else if cp == 0x2584 then 0xDC
                else if cp == 0x2588 then 0xDB else if cp == 0x258C then 0xDD else -1
              else
                if cp == 0x2590 then 0xDE else if cp == 0x2591 then 0xB0
                else if cp == 0x2592 then 0xB1 else if cp == 0x2593 then 0xB2 else -1
        else
          if cp < 0x25D9 then
            if cp < 0x25BC then
              if cp == 0x25A0 then 0xFE else if cp == 0x25AC then 0x16
              else if cp == 0x25B2 then 0x1E else if cp == 0x25BA then 0x10 else -1
            else
              if cp == 0x25BC then 0x1F else if cp == 0x25C4 then 0x11
              else if cp == 0x25CB then 0x09 else if cp == 0x25D8 then 0x08 else -1
          else
            if cp < 0x2640 then
              if cp == 0x25D9 then 0x0A else if cp == 0x263A then 0x01
              else if cp == 0x263B then 0x02 else if cp == 0x263C then 0x0F else -1
            else
              if cp < 0x2665 then
                if cp == 0x2640 then 0x0C else if cp == 0x2642 then 0x0B
                else if cp == 0x2660 then 0x06 else if cp == 0x2663 then 0x05 else -1
              else
                if cp == 0x2665 then 0x03 else if cp == 0x2666 then 0x04
                else if cp == 0x266A then 0x0D else if cp == 0x266B then 0x0E else -1
  }

  lemma Cp437LowDecodes()
    ensures forall k :: 0 <= k < 32 ==> Cp437Byte(Cp437Low[k]) == k
  {
  }

  lemma Cp437Quarter0Decodes()
    ensures forall k :: 0 <= k < 32 ==> Cp437Byte(Cp437High0[k]) == 0x80 + k
  {
  }

  lemma Cp437Quarter1Decodes()
    ensures forall k :: 0 <= k < 32 ==> Cp437Byte(Cp437High1[k]) == 0xA0 + k
  {
  }

  lemma Cp437Quarter2Decodes()
    ensures forall k :: 0 <= k < 32 ==> Cp437Byte(Cp437High2[k]) == 0xC0 + k
  {
  }

  lemma Cp437Quarter3Decodes()
    ensures forall k :: 0 <= k < 32 ==> Cp437Byte(Cp437High3[k]) == 0xE0 + k
  {
  }

  /** Byte i of the table read from the literal part it comes from. */
  function Cp437Entry(i: int): int
    requires 0 <= i < 256
  {
    if i < 0x20 then Cp437Low[i] else if i < 0x80 then i
    else if i < 0xA0 then Cp437High0[i - 0x80] else if i < 0xC0 then Cp437High1[i - 0xA0]
    else if i < 0xE0 then Cp437High2[i - 0xC0] else Cp437High3[i - 0xE0]
  }

  /** Indexing a concatenation of three sequences. */
  lemma ConcatIndex(a: seq<int>, b: seq<int>, c: seq<int>, i: int)
    requires 0 <= i < |a| + |b| + |c|
    ensures (a + b + c)[i] == if i < |a| then a[i] else if i < |a| + |b| then b[i - |a|] else c[i - |a| - |b|]
  {
  }

  lemma Cp437MapLowHalf(i: int)
    requires 0 <= i < 0x80
    ensures |Cp437Map()| == 256
    ensures Cp437Map()[i] == if i < 0x20 then Cp437Low[i] else i
  {
    assert |Cp437Low| == 32 && |Cp437High| == 128;
    ConcatIndex(Cp437Low, CodepointRange(0x20, 0x80), Cp437High, i);
  }

  lemma Cp437MapHighHalf(i: int)
    requires 0x80 <= i < 256
    ensures |Cp437Map()| == 256
    ensures Cp437Map()[i] == Cp437High[i - 0x80]
  {
    assert |Cp437Low| == 32 && |Cp437High| == 128;
    ConcatIndex(Cp437Low, CodepointRange(0x20, 0x80), Cp437High, i);
  }

  lemma Cp437HighQuarters(k: int)
    requires 0 <= k < 128
    ensures |Cp437High| == 128
    ensures Cp437High[k] == if k < 0x20 then Cp437High0[k] else if k < 0x40 then Cp437High1[k - 0x20]
                            else if k < 0x60 then Cp437High2[k - 0x40] else Cp437High3[k - 0x60]
  {
    var q0, q1, q2, q3 := Cp437High0, Cp437High1, Cp437High2, Cp437High3;
    assert |q0| == 32 && |q1| == 32 && |q2| == 32 && |q3| == 32;
    if k < 0x40 {
      ConcatIndex(q0, q1, q2 + q3, k);
    } else {
      ConcatIndex(q0 + q1, q2, q3, k);
    }
  }

  /** The table, split into its parts, for reading an entry by byte. */
  lemma Cp437MapParts(i: int)
    requires 0 <= i < 256
    ensures |Cp437Map()| == 256
    ensures Cp437Map()[i] == Cp437Entry(i)
  {
    if i < 0x80 {
      Cp437MapLowHalf(i);
    } else {
      Cp437MapHighHalf(i);
      Cp437HighQuarters(i - 0x80);
    }
  }

  /** Every byte's code point leads back to that byte, so no two bytes show the same code point. */
  lemma Cp437MapDecodes()
    ensures |Cp437Map()| == 256
    ensures forall i :: 0 <= i < 256 ==> Cp437Byte(Cp437Map()[i]) == i
  {
    Cp437LowDecodes();
    Cp437Quarter0Decodes();
    Cp437Quarter1Decodes();
    Cp437Quarter2Decodes();
    Cp437Quarter3Decodes();
    forall i | 0 <= i < 256 ensures Cp437Byte(Cp437Map()[i]) == i {
      Cp437MapParts(i);
    }
    Cp437MapShape();
  }

  lemma Cp437ByteEncodesLow(cp: int)
    requires cp < 0x00EB
    ensures |Cp437Map()| == 256
    ensures 0 <= Cp437Byte(cp) ==> Cp437Byte(cp) < 256 && Cp437Map()[Cp437Byte(cp)] == cp
  {
    Cp437MapParts(0);
    if 0 <= Cp437Byte(cp) {
      Cp437MapParts(Cp437Byte(cp));
    }
  }

  lemma Cp437ByteEncodesMiddle(cp: int)
    requires 0x00EB <= cp < 0x2219
    ensures |Cp437Map()| == 256
    ensures 0 <= Cp437Byte(cp) ==> Cp437Byte(cp) < 256 && Cp437Map()[Cp437Byte(cp)] == cp
  {
    Cp437MapParts(0);
    if 0 <= Cp437Byte(cp) {
      Cp437MapParts(Cp437Byte(cp));
    }
  }

  lemma Cp437ByteEncodesBoxes(cp: int)
    requires 0x2219 <= cp < 0x2561
    ensures |Cp437Map()| == 256
    ensures 0 <= Cp437Byte(cp) ==> Cp437Byte(cp) < 256 && Cp437Map()[Cp437Byte(cp)] == cp
  {
    Cp437MapParts(0);
    if 0 <= Cp437Byte(cp) {
      Cp437MapParts(Cp437Byte(cp));
    }
  }

  lemma Cp437ByteEncodesHigh(cp: int)
    requires 0x2561 <= cp
    ensures |Cp437Map()| == 256
    ensures 0 <= Cp437Byte(cp) ==> Cp437Byte(cp) < 256 && Cp437Map()[Cp437Byte(cp)] == cp
  {
    Cp437MapParts(0);
    if 0 <= Cp437Byte(cp) {
      Cp437MapParts(Cp437Byte(cp));
    }
  }

  /**
   * Cp437Byte inverts the table both ways: byte i shows code point cp exactly when cp decodes
   * to i, and a code point no byte shows decodes to -1.
   */
  lemma Cp437RoundTrip(i: int, cp: int)
    requires 0 <= i < 256
    ensures |Cp437Map()| == 256
    ensures Cp437Map()[i] == cp <==> Cp437Byte(cp) == i
    ensures Cp437Byte(cp) < 256
  {
    Cp437MapDecodes();
    if cp < 0x00EB {
      Cp437ByteEncodesLow(cp);
    } else if cp < 0x2219 {
      Cp437ByteEncodesMiddle(cp);
    } else if cp < 0x2561 {
      Cp437ByteEncodesBoxes(cp);
    } else {
      Cp437ByteEncodesHigh(cp);
    }
  }

  /** Every character of CP437_CHARS lies below the surrogates, so its code point has four hex digits. */
  lemma Cp437CharsBelowSurrogates()
    ensures |Cp437Chars()| == 256
    ensures forall i :: 0 <= i < 256 ==> Cp437Chars()[i] as int == Cp437Map()[i]
    ensures forall c :: c in Cp437Chars() ==> c as int < 0xD800
  {
    var chars := Cp437Chars();
    Cp437MapShape();
    forall c | c in chars ensures c as int < 0xD800 {
      var j :| 0 <= j < |chars| && chars[j] == c;
    }
  }

  /**
   * CP437_CHARS has 256 characters, the code points of the table in byte order; they are
   * pairwise distinct, and bytes 0x20-0x7F show the ASCII character of the same number.
   */
  lemma Cp437CharsShape()
    ensures |Cp437Chars()| == 256
    ensures forall i :: 0 <= i < 256 ==> Cp437Chars()[i] as int == Cp437Map()[i]
    ensures forall i :: 0x20 <= i < 0x80 ==> Cp437Chars()[i] == i as char
    ensures forall i, j :: 0 <= i < j < 256 ==> Cp437Chars()[i] != Cp437Chars()[j]
  {
    var chars := Cp437Chars();
    Cp437MapShape();
    Cp437MapDecodes();
    forall i, j | 0 <= i < j < 256 ensures chars[i] != chars[j] {
      assert Cp437Byte(chars[i] as int) == i && Cp437Byte(chars[j] as int) == j;
    }
  }

  // ---------------------------------------------------------------------------
  // Unicode repertoire
  // ---------------------------------------------------------------------------

  /** The characters lo, lo + 1, ..., hi - 1. */
  function CharRange(lo: int, hi: int): seq<char>
    requires 0 <= lo <= hi <= 0xD800
  {
    seq(hi - lo, k requires 0 <= k < hi - lo => (lo + k) as char)
  }

  /**
   * The seven blocks in order: Basic Latin printables, Latin-1 Supplement, Box Drawing,
   * Block Elements, Geometric Shapes, Miscellaneous Symbols, Dingbats.
   */
  function UnicodeChars(): seq<char>
  {
    CharRange(0x20, 0x7F) + CharRange(0xA0, 0x100) + CharRange(0x2500, 0x2580)
      + CharRange(0x2580, 0x25A0) + CharRange(0x25A0, 0x2600) + CharRange(0x2600, 0x2700)
      + CharRange(0x2700, 0x27C0)
  }

  /** Membership in the repertoire: the last five blocks are adjacent and form one interval. */
  predicate InUnicodeRepertoire(c: char)
  {
    (0x20 <= c as int < 0x7F) || (0xA0 <= c as int < 0x100) || (0x2500 <= c as int < 0x27C0)
  }

  predicate StrictlyAscending(s: seq<char>)
  {
    forall i, j :: 0 <= i < j < |s| ==> s[i] < s[j]
  }

  lemma CharRangeAscending(lo: int, hi: int)
    requires 0 <= lo <= hi <= 0xD800
    ensures StrictlyAscending(CharRange(lo, hi))
  {
  }

  lemma InCharRange(c: char, lo: int, hi: int)
    requires 0 <= lo <= hi <= 0xD800
    ensures c in CharRange(lo, hi) <==> lo <= c as int < hi
  {
    if lo <= c as int < hi {
      assert CharRange(lo, hi)[c as int - lo] == c;
    }
  }

  lemma AppendAscending(a: seq<char>, b: seq<char>)
    requires StrictlyAscending(a) && StrictlyAscending(b)
    requires a != [] && b != [] && a[|a| - 1] < b[0]
    ensures StrictlyAscending(a + b)
  {
    var s := a + b;
    forall i, j | 0 <= i < j < |s| ensures s[i] < s[j] {
      if j < |a| {
      } else if i >= |a| {
        assert s[i] == b[i - |a|] && s[j] == b[j - |a|];
      } else {
        assert s[i] <= a[|a| - 1];
        assert b[0] <= s[j] == b[j - |a|];
      }
    }
  }

  /**
   * UNICODE_CHARS has 895 characters in strictly ascending order (so no duplicates), holds
   * exactly the characters of its blocks, and fills 28 rows of 32.
   */
  lemma UnicodeCharsShape()
    ensures |UnicodeChars()| == 895
    ensures StrictlyAscending(UnicodeChars())
    ensures forall c :: c in UnicodeChars() <==> InUnicodeRepertoire(c)
    ensures Rows(|UnicodeChars()|, UnicodeTilesPerRow) == 28
  {
    var r1, r2, r3, r4 := CharRange(0x20, 0x7F), CharRange(0xA0, 0x100), CharRange(0x2500, 0x2580), CharRange(0x2580, 0x25A0);
    var r5, r6, r7 := CharRange(0x25A0, 0x2600), CharRange(0x2600, 0x2700), CharRange(0x2700, 0x27C0);
    CharRangeAscending(0x20, 0x7F);
    CharRangeAscending(0xA0, 0x100);
    CharRangeAscending(0x2500, 0x2580);
    CharRangeAscending(0x2580, 0x25A0);
    CharRangeAscending(0x25A0, 0x2600);
    CharRangeAscending(0x2600, 0x2700);
    CharRangeAscending(0x2700, 0x27C0);
    AppendAscending(r1, r2);
    AppendAscending(r1 + r2, r3);
    AppendAscending(r1 + r2 + r3, r4);
    AppendAscending(r1 + r2 + r3 + r4, r5);
    AppendAscending(r1 + r2 + r3 + r4 + r5, r6);
    AppendAscending(r1 + r2 + r3 + r4 + r5 + r6, r7);
    forall c ensures c in UnicodeChars() <==> InUnicodeRepertoire(c) {
      InCharRange(c, 0x20, 0x7F);
      InCharRange(c, 0xA0, 0x100);
      InCharRange(c, 0x2500, 0x2580);
      InCharRange(c, 0x2580, 0x25A0);
      InCharRange(c, 0x25A0, 0x2600);
      InCharRange(c, 0x2600, 0x2700);
      InCharRange(c, 0x2700, 0x27C0);
    }
  }

  /** One list.extend([chr(i) for i in range(lo, hi)]) on the list being built. */
  method Extend(chars: seq<char>, lo: int, hi: int) returns (r: seq<char>)
    requires 0 <= lo <= hi <= 0xD800
    ensures r == chars + CharRange(lo, hi)
  {
    r := chars;
    var i := lo;
    while i < hi
      invariant lo <= i <= hi
      invariant r == chars + CharRange(lo, i)
    {
      assert CharRange(lo, i + 1) == CharRange(lo, i) + [i as char];
      r := r + [i as char];
      i := i + 1;
    }
  }

  /** UNICODE_CHARS as the module builds it: an empty list extended block by block. */
  method BuildUnicodeChars() returns (chars: seq<char>)
    ensures chars == UnicodeChars()
    ensures |chars| == 895 && StrictlyAscending(chars)
  {
    chars := [];
    chars := Extend(chars, 0x0020, 0x007F);
    chars := Extend(chars, 0x00A0, 0x0100);
    chars := Extend(chars, 0x2500, 0x2580);
    chars := Extend(chars, 0x2580, 0x25A0);
    chars := Extend(chars, 0x25A0, 0x2600);
    chars := Extend(chars, 0x2600, 0x2700);
    chars := Extend(chars, 0x2700, 0x27C0);
    UnicodeCharsShape();
  }

  // ---------------------------------------------------------------------------
  // Font, drawing loop, the two sheets
  // ---------------------------------------------------------------------------

  /** load_font: the first candidate present on disk at size 58, else the library default. */
  method LoadFont(present: string -> bool) returns (font: Font)
    ensures var k := FirstExisting(FontPaths, present);
            font == if k < |FontPaths| then TrueType(FontPaths[k], FontSize) else BuiltinDefault
  {
    for i := 0 to |FontPaths|
      invariant forall j :: 0 <= j < i ==> !present(FontPaths[j])
    {
      if present(FontPaths[i]) {
        font := TrueType(FontPaths[i], FontSize);
        return;
      }
    }
    font := BuiltinDefault;
  }

  /** The call that draws ch as the character at index i of a perRow-column grid. */
  function GridCall(i: nat, ch: char, perRow: nat, font: Font, measure: (Font, char) -> BBox): TextCall
    requires perRow > 0
  {
    var tile := TileRect(i, perRow, TileWidth, TileHeight);
    var pen := PlaceGlyph(tile.x0, tile.y0, TileWidth, TileHeight, measure(font, ch));
    TextCall(pen.0, pen.1, ch, Fill)
  }

  /**
   * The drawing loop of both grid tilesets: a perRow * 38 by rows * 64 sheet, and one call per
   * character, in repertoire order, centring it in its row-major tile.
   */
  method DrawGrid(chars: seq<char>, perRow: nat, font: Font, measure: (Font, char) -> BBox)
    returns (sheet: Sheet)
    requires perRow > 0
    ensures sheet.width == perRow * TileWidth && sheet.height == Rows(|chars|, perRow) * TileHeight
    ensures sheet.font == font && |sheet.calls| == |chars|
    ensures forall i :: 0 <= i < |chars| ==> sheet.calls[i] == GridCall(i, chars[i], perRow, font, measure)
  {
    var rows := (|chars| + perRow - 1) / perRow;
    var calls: seq<TextCall> := [];
    for i := 0 to |chars|
      invariant |calls| == i
      invariant forall j :: 0 <= j < i ==> calls[j] == GridCall(j, chars[j], perRow, font, measure)
    {
      var row := i / perRow;
      var col := i % perRow;
      var xOffset := col * TileWidth;
      var yOffset := row * TileHeight;
      var bbox := measure(font, chars[i]);
      var textWidth := bbox.right - bbox.left;
      var textHeight := bbox.bottom - bbox.top;
      var x := xOffset + (TileWidth - textWidth) / 2;
      var y := yOffset + (TileHeight - textHeight) / 2 - bbox.top;
      calls := calls + [TextCall(x, y, chars[i], Fill)];
    }
    sheet := Sheet(perRow * TileWidth, rows * TileHeight, font, calls);
  }

  /**
   * What every call of a grid sheet satisfies: its tile lies inside the sheet and is disjoint
   * from every other character's tile; the pen's x leaves margins that differ by at most one
   * and, for a glyph no wider than the tile, stays within [tile left, tile right - width]; the
   * glyph's box, for a glyph no taller than the tile, lies vertically inside the tile.
   */
  lemma GridCallPlacement(chars: seq<char>, perRow: nat, font: Font, measure: (Font, char) -> BBox, i: nat)
    requires perRow > 0 && i < |chars|
    ensures var tile := TileRect(i, perRow, TileWidth, TileHeight);
            var call := GridCall(i, chars[i], perRow, font, measure);
            var b := measure(font, chars[i]);
            var tw, th := b.right - b.left, b.bottom - b.top;
            && Within(tile, ImageRect(|chars|, perRow, TileWidth, TileHeight))
            && (forall j: nat :: j < |chars| && j != i ==> Disjoint(tile, TileRect(j, perRow, TileWidth, TileHeight)))
            && 0 <= (tile.x1 - (call.x + tw)) - (call.x - tile.x0) <= 1
            && (0 <= tw <= TileWidth ==> tile.x0 <= call.x && call.x + tw <= tile.x1)
            && (0 <= th <= TileHeight ==> tile.y0 <= call.y + b.top && call.y + b.bottom <= tile.y1)
  {
    TileInsideImage(i, |chars|, perRow, TileWidth, TileHeight);
    forall j: nat | j < |chars| && j != i
      ensures Disjoint(TileRect(i, perRow, TileWidth, TileHeight), TileRect(j, perRow, TileWidth, TileHeight))
    {
      TilesDisjoint(i, j, perRow, TileWidth, TileHeight);
    }
  }

  /** create_cp437_tileset: a 608 x 1024 sheet drawing the 256 CP437 glyphs on 16 columns. */
  method CreateCp437Tileset(present: string -> bool, measure: (Font, char) -> BBox) returns (sheet: Sheet)
    ensures var k := FirstExisting(FontPaths, present);
            sheet.font == if k < |FontPaths| then TrueType(FontPaths[k], FontSize) else BuiltinDefault
    ensures sheet.width == 608 && sheet.height == 1024 && |sheet.calls| == 256
    ensures forall i :: 0 <= i < 256 ==>
              sheet.calls[i] == GridCall(i, Cp437Chars()[i], Cp437TilesPerRow, sheet.font, measure)
              && sheet.calls[i].ch as int == Cp437Map()[i]
  {
    Cp437MapShape();
    var font := LoadFont(present);
    sheet := DrawGrid(Cp437Chars(), Cp437TilesPerRow, font, measure);
  }

  /** create_unicode_tileset: a 1216 x 1792 sheet drawing the 895 characters on 32 columns. */
  method CreateUnicodeTileset(present: string -> bool, measure: (Font, char) -> BBox) returns (sheet: Sheet)
    ensures var k := FirstExisting(FontPaths, present);
            sheet.font == if k < |FontPaths| then TrueType(FontPaths[k], FontSize) else BuiltinDefault
    ensures sheet.width == 1216 && sheet.height == 1792 && |sheet.calls| == 895
    ensures forall i :: 0 <= i < 895 ==>
              sheet.calls[i] == GridCall(i, UnicodeChars()[i], UnicodeTilesPerRow, sheet.font, measure)
  {
    UnicodeCharsShape();
    var font := LoadFont(present);
    sheet := DrawGrid(UnicodeChars(), UnicodeTilesPerRow, font, measure);
  }

  // ---------------------------------------------------------------------------
  // Character maps
  // ---------------------------------------------------------------------------

  function Cp437Charmap(): seq<string>
  {
    Charmap.CharmapFile("CP437 (Code Page 437) Character Map", Cp437Chars(), Cp437TilesPerRow)
  }

  function UnicodeCharmap(): seq<string>
  {
    Charmap.CharmapFile("Unicode Printable Characters Map", UnicodeChars(), UnicodeTilesPerRow)
  }

  /**
   * The CP437 map has four heading lines and then one 30-character line per tile; line 4 + i
   * reads back to i, to i's grid cell and to the table entry of i.
   */
  lemma Cp437CharmapReadsBack(i: nat)
    requires i < 256
    ensures |Cp437Charmap()| == 4 + 256
    ensures var line := Cp437Charmap()[4 + i];
            var cell := CellOf(i, Cp437TilesPerRow);
            && |line| == 30
            && Charmap.ValueOf(Charmap.StripLeft(line[0..4], ' '), 10) == i
            && Charmap.ValueOf(Charmap.StripLeft(line[7..9], ' '), 10) == cell.0
            && Charmap.ValueOf(Charmap.StripLeft(line[10..12], ' '), 10) == cell.1
            && Charmap.ValueOf(line[17..21], 16) == Cp437Map()[i]
  {
    var chars := Cp437Chars();
    Cp437CharsBelowSurrogates();
    assert chars[i] as int == Cp437Map()[i];
    Charmap.CharmapReadsBack(chars, Cp437TilesPerRow, i);
  }

  /**
   * The Unicode map has four heading lines and then one 30-character line per tile; line 4 + i
   * reads back to i, to i's grid cell and to the code point of the character drawn there.
   */
  lemma UnicodeCharmapReadsBack(i: nat)
    requires i < 895
    ensures |UnicodeCharmap()| == 4 + 895
    ensures var line := UnicodeCharmap()[4 + i];
            var cell := CellOf(i, UnicodeTilesPerRow);
            && |line| == 30
            && Charmap.ValueOf(Charmap.StripLeft(line[0..4], ' '), 10) == i
            && Charmap.ValueOf(Charmap.StripLeft(line[7..9], ' '), 10) == cell.0
            && Charmap.ValueOf(Charmap.StripLeft(line[10..12], ' '), 10) == cell.1
            && Charmap.ValueOf(line[17..21], 16) == UnicodeChars()[i] as int
  {
    UnicodeCharsShape();
    var chars := UnicodeChars();
    forall c | c in chars ensures c as int < 0x10000 {
      assert InUnicodeRepertoire(c);
    }
    Charmap.CharmapReadsBack(chars, UnicodeTilesPerRow, i);
  }

}
