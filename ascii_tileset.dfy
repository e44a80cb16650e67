/**
 * The single-row ASCII sheet: the 95 printable ASCII characters, each in a
 * 32 x 32 tile laid left to right, centred, and drawn in its game colour
 * (white for characters without one).
 */
module AsciiTileset {
  import opened Wrappers
  import opened Grid
  import opened Fonts
  import opened Drawing

  const TileSize: nat := 32
  const FontSize: nat := 14

  datatype Rgb = Rgb(r: nat, g: nat, b: nat)

  /** DEFAULT_COLOR: declared, but the lookup falls back to pure white instead. */
  const DefaultColor := Rgb(200, 200, 200)
  /** The fallback colour of the lookup. */
  const White := Rgb(255, 255, 255)

  /** COLOR_OVERRIDES: colours of the characters that stand for game elements. */
  const ColorOverrides: map<char, Rgb> := map[
    '@' := Rgb(255, 255, 0),
    '.' := Rgb(80, 80, 80),
    '#' := Rgb(200, 200, 200),
    '+' := Rgb(153, 102, 51),
    '>' := Rgb(0, 255, 255),
    '<' := Rgb(0, 255, 255),
    'T' := Rgb(0, 180, 0),
    '~' := Rgb(51, 102, 255),
    'r' := Rgb(140, 69, 18),
    'W' := Rgb(69, 255, 69),
    'w' := Rgb(161, 161, 161),
    '%' := Rgb(180, 100, 100),
    '$' := Rgb(255, 215, 0),
    '&' := Rgb(139, 90, 43),
    '!' := Rgb(255, 100, 100),
    '?' := Rgb(100, 149, 237)
  ]

  const FontPaths: seq<string> := [
    "/System/Library/Fonts/Courier.dfont",
    "/usr/share/fonts/truetype/dejavu/DejaVuSansMono.ttf",
    "C:\\Windows\\Fonts\\cour.ttf"
  ]

  /** CHARS: [chr(i) for i in range(32, 127)]. */
  function Chars(): seq<char>
  {
    seq(127 - 32, k requires 0 <= k < 127 - 32 => (32 + k) as char)
  }

  /**
   * CHARS has 95 characters in code point order and holds exactly the printable ASCII
   * characters 32-126, so the sheet is 3040 pixels wide.
   */
  lemma CharsShape()
    ensures |Chars()| == 95
    ensures forall k :: 0 <= k < 95 ==> Chars()[k] as int == 32 + k
    ensures forall c :: c in Chars() <==> 32 <= c as int < 127
    ensures |Chars()| * TileSize == 3040
  {
    forall c | 32 <= c as int < 127 ensures c in Chars() {
      assert Chars()[c as int - 32] == c;
    }
  }

  /** The colour a character is drawn in: its override, else white. */
  function ColorOf(c: char): Rgb
  {
    if c in ColorOverrides then ColorOverrides[c] else White
  }

  /**
   * Every override key is one of CHARS; no override is white, so a character is drawn white
   * exactly when it has no override; and only '#' is drawn in DEFAULT_COLOR.
   */
  lemma ColorLookup()
    ensures forall c :: c in ColorOverrides ==> c in Chars()
    ensures forall c :: ColorOf(c) == White <==> c !in ColorOverrides
    ensures forall c :: ColorOf(c) == DefaultColor <==> c == '#'
  {
    CharsShape();
  }

  /**
   * The font block: the first candidate present on disk at size 14; the default font when
   * none is present, and also when loading the one found fails (the surrounding handler).
   */
  method LoadFont(present: string -> bool, loads: string -> bool) returns (font: Font)
    ensures var k := FirstExisting(FontPaths, present);
            font == if k < |FontPaths| && loads(FontPaths[k]) then TrueType(FontPaths[k], FontSize)
                    else BuiltinDefault
  {
    var found: Option<Font> := None;
    var failed := false;
    var i := 0;
    while i < |FontPaths|
      invariant 0 <= i <= |FontPaths|
      invariant forall j :: 0 <= j < i ==> !present(FontPaths[j])
      invariant found == None && !failed
    {
      if present(FontPaths[i]) {
        if loads(FontPaths[i]) {
          found := Some(TrueType(FontPaths[i], FontSize));
        } else {
          failed := true;
        }
        break;
      }
      i := i + 1;
    }
    if failed || found == None {
      font := BuiltinDefault;
    } else {
      font := found.value;
    }
  }

  /** The call that draws ch as the i-th tile: no row offset, coloured by ColorOf, opaque. */
  function AsciiCall(i: nat, ch: char, font: Font, measure: (Font, char) -> BBox): TextCall
  {
    var pen := PlaceGlyph(i * TileSize, 0, TileSize, TileSize, measure(font, ch));
    var color := ColorOf(ch);
    TextCall(pen.0, pen.1, ch, Rgba(color.r, color.g, color.b, 255))
  }

  /** create_ascii_tileset: a 3040 x 32 sheet and one call per character of CHARS, in order. */
  method CreateAsciiTileset(present: string -> bool, loads: string -> bool, measure: (Font, char) -> BBox)
    returns (sheet: Sheet)
    ensures var k := FirstExisting(FontPaths, present);
            sheet.font == if k < |FontPaths| && loads(FontPaths[k]) then TrueType(FontPaths[k], FontSize)
                          else BuiltinDefault
    ensures sheet.width == 3040 && sheet.height == 32 && |sheet.calls| == 95
    ensures forall i :: 0 <= i < 95 ==> sheet.calls[i] == AsciiCall(i, Chars()[i], sheet.font, measure)
  {
    var chars := Chars();
    var width := |chars| * TileSize;
    var height := TileSize;
    var font := LoadFont(present, loads);
    var calls: seq<TextCall> := [];
    for i := 0 to |chars|
      invariant |calls| == i
      invariant forall j :: 0 <= j < i ==> calls[j] == AsciiCall(j, chars[j], font, measure)
    {
      var xOffset := i * TileSize;
      var color := ColorOf(chars[i]);
      var bbox := measure(font, chars[i]);
      var textWidth := bbox.right - bbox.left;
      var textHeight := bbox.bottom - bbox.top;
      var x := xOffset + (TileSize - textWidth) / 2;
      var y := (TileSize - textHeight) / 2 - bbox.top;
      calls := calls + [TextCall(x, y, chars[i], Rgba(color.r, color.g, color.b, 255))];
    }
    sheet := Sheet(width, height, font, calls);
  }

  /** The single row is the row-major grid with one row of 95 columns. */
  lemma SingleRowIsGrid(i: nat)
    requires i < 95
    ensures TileRect(i, 95, TileSize, TileSize) == Rect(i * TileSize, 0, (i + 1) * TileSize, TileSize)
    ensures ImageRect(95, 95, TileSize, TileSize) == Rect(0, 0, 3040, 32)
  {
    var (col, row) := CellOf(i, 95);
    assert row == 0;
  }

  /**
   * Tile i is [32 i, 32 i + 32) x [0, 32): inside the 3040 x 32 sheet and disjoint from every
   * other tile. The pen's x leaves margins that differ by at most one and keeps a box no wider
   * than 32 inside the tile; a box no taller than 32 lies vertically inside the tile.
   */
  lemma AsciiCallPlacement(font: Font, measure: (Font, char) -> BBox, i: nat)
    requires i < 95
    ensures var tile := Rect(i * TileSize, 0, (i + 1) * TileSize, TileSize);
            var call := AsciiCall(i, Chars()[i], font, measure);
            var b := measure(font, Chars()[i]);
            var tw, th := b.right - b.left, b.bottom - b.top;
            && Within(tile, Rect(0, 0, 3040, 32))
            && (forall j: nat :: j < 95 && j != i ==> Disjoint(tile, Rect(j * TileSize, 0, (j + 1) * TileSize, TileSize)))
            && 0 <= (tile.x1 - (call.x + tw)) - (call.x - tile.x0) <= 1
            && (0 <= tw <= TileSize ==> tile.x0 <= call.x && call.x + tw <= tile.x1)
            && (0 <= th <= TileSize ==> 0 <= call.y + b.top && call.y + b.bottom <= TileSize)
  {
    SingleRowIsGrid(i);
    TileInsideImage(i, 95, 95, TileSize, TileSize);
    forall j: nat | j < 95 && j != i
      ensures Disjoint(Rect(i * TileSize, 0, (i + 1) * TileSize, TileSize), Rect(j * TileSize, 0, (j + 1) * TileSize, TileSize))
    {
      SingleRowIsGrid(j);
      TilesDisjoint(i, j, 95, TileSize, TileSize);
    }
  }
}
