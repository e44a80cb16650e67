# Roguelike tileset generators and enemy-record normaliser, modelled in Dafny

This project models three small build scripts of a roguelike game.

- `rendering/generate_tilesets.py` builds two sprite sheets and their character maps.
  - The CP437 sheet holds the 256 glyphs of the IBM PC code page on a 16-column grid.
  - The Unicode sheet holds 895 printable characters from seven Unicode blocks on a 32-column grid.
  - Every tile is 38 x 64 pixels. Each glyph is centred in its tile from the box the font reports for it.
  - Each sheet comes with a text map that lists, for every tile, its index, its (column, row) and its `U+XXXX` code point.
- `rendering/generate_ascii_tileset.py` draws the 95 printable ASCII characters in a single row of 32 x 32 tiles (3040 x 32). Each character gets its colour from a table of game-element overrides, and white otherwise.
- `scripts/add_creature_types.py` normalises one enemy record, which is a JSON object.
  - It decides the record's `creature_type` from the folder it sits in, or, for summons, from its id.
  - It adds an `element_subtype` for the five named elementals.
  - It reports whether anything changed. When something did, it puts the record's keys into the house key order.

The Dafny modules follow that structure:

| module | file | contents |
|---|---|---|
| `Wrappers` | wrappers.dfy | `Option` |
| `Grid` | grid.dfy | row count, index to cell, tile rectangles, glyph centring (shared by both generators) |
| `Fonts` | fonts.dfy | the font value and the "first existing path" specification |
| `Charmap` | charmap.dfy | decimal and hexadecimal numerals, padding, the charmap line and file |
| `Drawing` | drawing.dfy | a sheet as a record of its size, its font and the text calls made on it |
| `Tilesets` | tilesets.dfy | the CP437 table, the Unicode repertoire, `load_font`, both sheets and both maps |
| `AsciiTileset` | ascii_tileset.dfy | `CHARS`, the colour lookup, the font block, the single-row sheet |
| `CreatureTypes` | creature_types.dfy | the record, `reorder_keys`, the classification tables, `process_enemy_file` |

The imperative parts stay imperative.
- The Unicode list is built by successive `extend` calls (`Tilesets.Extend`, `Tilesets.BuildUnicodeChars`).
- `load_font` is a loop with an early return. The ASCII font block is a loop with `break`.
- The drawing loops append one text call per character.
- `reorder_keys` fills a new record in two insertion loops.
- `process_enemy_file` updates its record step by step and raises a `modified` flag.

Each of these methods is proved against a specification function (`FirstExisting`, `UnicodeChars`, `GridCall`, `AsciiCall`, `OrderKeys`, `Stale`, `Updated`). The lemmas state the promised properties about those functions.

The rendering library is not modelled.
- A font's text measurement is a parameter `measure: (Font, char) -> BBox`.
- A sheet is the record of its size and of the `draw.text` calls made on it, in order.
- `os.path.exists` is a parameter `present: string -> bool`.
- In the ASCII script, whether `ImageFont.truetype` succeeds on a path is a parameter `loads: string -> bool`.

A JSON object is a `Dict`: its keys in insertion order, plus a map from key to value. Storing under an existing key keeps that key's position; a new key goes last, as with a Python dict. A JSON value is either a string or some other value, because the script only ever compares values with strings.

Two details of the code, and how the model treats them:
- `generate_ascii_tileset.py:71` looks the colour up in a table named `COLORS`, which the script never defines. As written, the first iteration of the drawing loop would stop the script. The table the file does define is `COLOR_OVERRIDES`, so the model performs the lookup against `COLOR_OVERRIDES`.
- Both generators centre a glyph's width from the pen position. The horizontal formula ignores the box's left bearing (`bbox[0]`), while the vertical one subtracts the box's top (`bbox[1]`). The model keeps that asymmetry. The horizontal property is therefore stated about the pen's x. The vertical property is stated about the ink box `y + bbox[1] .. y + bbox[3]`.

## Model

| member | source | states |
|---|---|---|
| `Grid.Rows` | rendering/generate_tilesets.py:103 | the row count is the ceiling of n / perRow: rows * perRow covers n, one row fewer does not, and no tiles need no rows |
| `Grid.CellOf` | rendering/generate_tilesets.py:115-116 | the column is below perRow and index == row * perRow + column |
| `Grid.CellOfIndexOf` | rendering/generate_tilesets.py:115-116 | index to cell inverts row-major numbering: every cell (col < perRow) is the cell of exactly its own index |
| `Grid.CellInGrid` | rendering/generate_tilesets.py:115-116 | every index below n lands on a row below Rows(n), and no two indices share a cell |
| `Grid.TileInsideImage` | rendering/generate_tilesets.py:104-118 | the tile rectangle of every index below n lies inside the perRow*W x rows*H sheet |
| `Grid.TilesDisjoint` | rendering/generate_tilesets.py:117-118 | the tiles of two distinct indices do not overlap |
| `Grid.CenterStart` | rendering/generate_tilesets.py:124 | offset + (cell - extent) // 2 leaves two margins that differ by at most one; an extent that fits stays inside the cell; a wider one reaches or passes both edges |
| `Grid.PlaceGlyph` | rendering/generate_tilesets.py:121-125 | the pen's x leaves horizontal margins within one pixel of each other and an x in [x_offset, x_offset + W - width] for a glyph that fits; the ink box y + top .. y + bottom is centred within one pixel and lies inside the tile for a glyph that fits |
| `Fonts.FirstExisting` | rendering/generate_tilesets.py:90-97 | the position found is that of a present path, every earlier path is absent, and the end of the list is reached exactly when no path is present |
| `Charmap.Numeral` | rendering/generate_tilesets.py:146 | an integer's decimal or hexadecimal numeral is non-empty, made only of digits of that base, and has no leading zero when the integer is positive |
| `Charmap.NumeralRoundTrip` | rendering/generate_tilesets.py:146 | reading a numeral back gives the integer it was written from |
| `Charmap.NumeralWidth` | rendering/generate_tilesets.py:146 | an integer below base^k has a numeral of at most k digits |
| `Charmap.PadLeft` | rendering/generate_tilesets.py:146 | a padded field is as wide as asked for (never truncated), ends with the unpadded text and is filled on the left |
| `Charmap.ZeroPaddingKeepsValue` | rendering/generate_tilesets.py:146 | a zero-padded numeral (`04X`) still reads back to its integer |
| `Charmap.SpacePaddingStrips` | rendering/generate_tilesets.py:146 | stripping the leading spaces of a space-padded numeral (`4d`, `2d`) gives the numeral back |
| `Charmap.CharmapLine` | rendering/generate_tilesets.py:146 | the f-string `{i:4d}  ({col:2d},{row:2d})  U+{code:04X}     '{char}'`; its layout and read-back are proved in `CharmapLineFields` |
| `Charmap.CharmapLineFields` | rendering/generate_tilesets.py:146 | a charmap line for i < 10000, col and row < 100 and a character below U+10000 is 30 characters long, its fields at fixed columns read back to i, col, row and the code point, and column 27 holds the character |
| `Charmap.CharmapFile` | rendering/generate_tilesets.py:139-146 | a map file has four heading lines, the first being the title, and then line 4 + i is the line of character i |
| `Charmap.CharmapReadsBack` | rendering/generate_tilesets.py:143-146 | in any map of at most 10000 characters below U+10000 on at most 100 x 100 cells, line i reads back to i, to i's cell and to the i-th character |
| `Tilesets.Cp437Map` | rendering/generate_tilesets.py:19-41 | `CP437_MAP`: the 32 control glyphs, `range(0x20, 0x80)` as itself, then the 128 upper-half code points; its properties are proved in `Cp437MapShape` and `Cp437RoundTrip` |
| `Tilesets.Cp437OutsideAscii` | rendering/generate_tilesets.py:19-41 | the two literal parts of the table have 32 and 128 entries and none of them lies in the ASCII range 0x20-0x7F |
| `Tilesets.Cp437MapShape` | rendering/generate_tilesets.py:19-41 | the table, including the `range(0x20, 0x80)` of line 24, has 256 entries; bytes 0x20-0x7F map to themselves, and no other byte maps into the ASCII range 0x20-0x7F; every entry is a valid character; the grid has 16 rows |
| `Tilesets.Cp437MapDecodes` | rendering/generate_tilesets.py:19-41 | the inverse table `Cp437Byte` takes the code point of every byte back to that byte |
| `Tilesets.Cp437RoundTrip` | rendering/generate_tilesets.py:19-41 | byte i shows code point cp exactly when `Cp437Byte(cp) == i`, so the table is a bijection between the 256 bytes and its code points, and a code point no byte shows decodes to -1 |
| `Tilesets.Cp437Chars` | rendering/generate_tilesets.py:43 | `CP437_CHARS = [chr(cp) for cp in CP437_MAP]`; its properties are proved in `Cp437CharsShape` |
| `Tilesets.Cp437CharsBelowSurrogates` | rendering/generate_tilesets.py:43 | `CP437_CHARS` has 256 characters, character i has code point `CP437_MAP[i]`, and every one lies below U+D800 |
| `Tilesets.Cp437CharsShape` | rendering/generate_tilesets.py:43 | `CP437_CHARS` has 256 characters, no two of them equal, so no glyph is drawn twice; bytes 0x20-0x7F show the ASCII character of the same number |
| `Tilesets.UnicodeChars` | rendering/generate_tilesets.py:52-73 | `UNICODE_CHARS`: the seven blocks in order; its properties are proved in `UnicodeCharsShape`, and `BuildUnicodeChars` shows the `extend` calls build it |
| `Tilesets.UnicodeCharsShape` | rendering/generate_tilesets.py:52-73 | the repertoire has 895 characters, is strictly ascending and so has no duplicates, holds exactly the characters of its blocks, and fills 28 rows of 32 |
| `Tilesets.Extend` | rendering/generate_tilesets.py:55-73 | one `extend` appends exactly the characters of the range, in order, to the list built so far |
| `Tilesets.BuildUnicodeChars` | rendering/generate_tilesets.py:52-73 | the seven `extend` calls build exactly the repertoire specification: 895 characters, ascending |
| `Tilesets.LoadFont` | rendering/generate_tilesets.py:79-97 | the font is the first present candidate at size 58, and the default exactly when no candidate is present |
| `Tilesets.GridCall` | rendering/generate_tilesets.py:114-127 | the `draw.text` call of the i-th character: row-major tile, the centred pen of `PlaceGlyph`, opaque white; `GridCallPlacement` proves where it lands and `DrawGrid` that the loop makes exactly these calls |
| `Tilesets.DrawGrid` | rendering/generate_tilesets.py:114-127 | the loop makes exactly one call per character, in repertoire order, each placing its character at the centred pen of its grid tile in opaque white |
| `Tilesets.GridCallPlacement` | rendering/generate_tilesets.py:114-127 | each call's tile lies inside the sheet and is disjoint from every other tile; the pen's x is centred within one pixel and keeps a glyph that fits inside the tile; a glyph no taller than the tile lies inside it vertically |
| `Tilesets.CreateCp437Tileset` | rendering/generate_tilesets.py:100-127 | the CP437 sheet is 608 x 1024, uses the font `load_font` picks, and holds 256 calls, call i drawing the character of table entry i in its cell |
| `Tilesets.CreateUnicodeTileset` | rendering/generate_tilesets.py:150-177 | the Unicode sheet is 1216 x 1792, uses the font `load_font` picks, and holds 895 calls, call i drawing the i-th repertoire character in its cell |
| `Tilesets.Cp437CharmapReadsBack` | rendering/generate_tilesets.py:137-146 | the CP437 map has 260 lines; line 4 + i is 30 characters long and reads back to i, to i's cell on 16 columns and to table entry i |
| `Tilesets.UnicodeCharmapReadsBack` | rendering/generate_tilesets.py:187-196 | the Unicode map has 899 lines; line 4 + i is 30 characters long and reads back to i, to i's cell on 32 columns and to the code point of the i-th character |
| `AsciiTileset.Chars` | rendering/generate_ascii_tileset.py:14 | `CHARS = [chr(i) for i in range(32, 127)]`; its properties are proved in `CharsShape` |
| `AsciiTileset.CharsShape` | rendering/generate_ascii_tileset.py:14 | `CHARS` has 95 characters in code point order, a character is in it exactly when it is printable ASCII (32-126), and the sheet is 3040 pixels wide |
| `AsciiTileset.ColorOf` | rendering/generate_ascii_tileset.py:71 | the colour of a character: its `COLOR_OVERRIDES` entry, else white; its properties are proved in `ColorLookup` |
| `AsciiTileset.ColorLookup` | rendering/generate_ascii_tileset.py:20-37 | all 16 override keys are in `CHARS`; a character is drawn white exactly when it has no override; only '#' is drawn in `DEFAULT_COLOR`, which is otherwise unused |
| `AsciiTileset.LoadFont` | rendering/generate_ascii_tileset.py:47-66 | the font is the first present candidate at size 14, unless loading that file fails; the default is used when no candidate is present or loading fails |
| `AsciiTileset.CreateAsciiTileset` | rendering/generate_ascii_tileset.py:39-83 | the sheet is 3040 x 32, uses the font the font block picks, and holds one call per character of `CHARS` in order, each at the centred pen of its tile in its colour, opaque |
| `AsciiTileset.SingleRowIsGrid` | rendering/generate_ascii_tileset.py:42-43 | the single row is the row-major grid with one row of 95 columns: tile i is [32 i, 32 i + 32) x [0, 32) and the sheet is 3040 x 32 |
| `AsciiTileset.AsciiCall` | rendering/generate_ascii_tileset.py:69-83 | the `draw.text` call of the i-th character: tile i of the row, the centred pen, its `ColorOf` colour, opaque; `AsciiCallPlacement` proves where it lands and `CreateAsciiTileset` that the loop makes exactly these calls |
| `AsciiTileset.AsciiCallPlacement` | rendering/generate_ascii_tileset.py:69-80 | tile i lies in the sheet and is disjoint from every other tile; the pen's x is centred within one pixel and keeps a glyph that fits inside; a glyph no taller than 32 lies inside the row, with no row offset |
| `CreatureTypes.PreferredOrderDistinct` | scripts/add_creature_types.py:96-127 | the house key order lists 30 keys, none twice |
| `CreatureTypes.OrderKeys` | scripts/add_creature_types.py:130-140 | the key order `reorder_keys` builds: the house keys the record has, in house order, then the remaining keys in record order; its properties are proved in `OrderKeysPermutation`, `PreferredKeysFirst`, `OrderKeysProjections` and `OrderKeysIdempotent` |
| `CreatureTypes.OrderKeysPermutation` | scripts/add_creature_types.py:130-140 | the new key order has no duplicates, holds exactly the keys of the record, and is a permutation of them |
| `CreatureTypes.PreferredKeysFirst` | scripts/add_creature_types.py:131-133 | every key of the house order comes before every key outside it |
| `CreatureTypes.OrderKeysProjections` | scripts/add_creature_types.py:130-140 | the house-order keys appear in house order, and the other keys keep their original relative order |
| `CreatureTypes.OrderKeysIdempotent` | scripts/add_creature_types.py:130-140 | ordering an ordered key list again changes nothing |
| `CreatureTypes.Reordered` | scripts/add_creature_types.py:90-140 | the reordered record is well formed: distinct keys, exactly the keys that have values |
| `CreatureTypes.CopyPreferred` | scripts/add_creature_types.py:130-133 | the first loop copies the house-order keys the record has, in house order, each with its own value |
| `CreatureTypes.CopyRemaining` | scripts/add_creature_types.py:135-140 | the second loop appends every key not yet copied, in the record's order, so the result has all the record's values under the full new order |
| `CreatureTypes.ReorderKeys` | scripts/add_creature_types.py:90-140 | `reorder_keys` returns a well-formed record with the same value under every key and the key order `OrderKeys` |
| `CreatureTypes.ReorderedIdempotent` | scripts/add_creature_types.py:90-140 | reordering a reordered record returns it unchanged |
| `CreatureTypes.Dict.Set` | scripts/add_creature_types.py:67-75 | `data[k] = v`: the key gets value v, an existing key keeps its position and a new key goes last, and the record stays well formed |
| `CreatureTypes.WantedFields` | scripts/add_creature_types.py:57-73 | the `creature_type` (from the summon table by id, else the folder table, else "humanoid") and the `element_subtype` wanted for a record; its properties are proved in `WantedFieldsShape` and `WantedFollowsId` |
| `CreatureTypes.WantedFieldsShape` | scripts/add_creature_types.py:57-73 | the creature_type is "humanoid" or one of the folder table's types; it is "elemental" exactly in the elementals folder; an element_subtype is wanted exactly there and for an id naming one of the five elementals, and it is that table's entry |
| `CreatureTypes.Stale` | scripts/add_creature_types.py:66-74 | the two tests that raise `modified`; `StaleIffChanged` proves they hold exactly when storing the wanted fields changes the record, and `ProcessEnemy` that the flag is this predicate |
| `CreatureTypes.Updated` | scripts/add_creature_types.py:66-77 | storing the wanted fields keeps the record well formed |
| `CreatureTypes.SetUnchanged` | scripts/add_creature_types.py:66-67 | storing the value a key already has leaves the record as it was, key order included |
| `CreatureTypes.ProcessEnemy` | scripts/add_creature_types.py:56-82 | `modified` is true exactly when the stored creature_type or a wanted element_subtype differs from the wanted one; the record written is then the updated record reordered, and nothing is written otherwise |
| `CreatureTypes.UpdatedChangesOnlyTypeFields` | scripts/add_creature_types.py:66-77 | no key other than creature_type and element_subtype changes value, existing keys keep their positions, creature_type is stored, and element_subtype is stored only when wanted |
| `CreatureTypes.StaleIffChanged` | scripts/add_creature_types.py:66-77 | a record is reported modified exactly when storing the wanted fields changes it |
| `CreatureTypes.WantedFollowsId` | scripts/add_creature_types.py:57-73 | the wanted fields depend on the record only through its id |
| `CreatureTypes.StaleFollowsVals` | scripts/add_creature_types.py:66-77 | whether a record needs a change does not depend on its key order |
| `CreatureTypes.ReprocessingIsClean` | scripts/add_creature_types.py:56-82 | processing the script's own output again reports no modification, both for the updated record and for the reordered one it writes |

## Left out

- Rasterisation: `Image.new`, `ImageDraw`, `textbbox`, `draw.text` and `image.save` belong to the imaging library. The box is an input and the sheet records the calls, so pixels, anti-aliasing and the PNG encoding are not modelled.
- `ImageFont.truetype` and `ImageFont.load_default` are names in the `Font` value. In `generate_tilesets.py` a failing `truetype` call raises out of the script; that crash is not modelled.
- File and console I/O: the charmap files are modelled as their list of lines, not as writes. `print` output, the `__main__` entry points, and the JSON read and write of `process_enemy_file` (its unreadable-file path and `json.dump` formatting) are left out.
- `main` of `add_creature_types.py`, which walks the enemy folders and counts files, is directory traversal plus counters and is not modelled.
- The `NameError` the undefined `COLORS` at `generate_ascii_tileset.py:71` would raise is not modelled. The intended lookup against `COLOR_OVERRIDES` is modelled instead.
- `TILES_PER_ROW = 16` in `generate_ascii_tileset.py` is declared but never used by the script's single-row layout, so the model has no counterpart for it.
- The records' id lookups treat a non-string id as absent from the tables. A JSON list or object as id would make Python's dictionary lookup raise `TypeError`; that error is not modelled.
- JSON values other than strings are one opaque kind; numbers, lists and nested objects are not distinguished.
- Missing-glyph detection, symbol-font selection and 2x render-and-downscale are not part of these scripts and are not modelled.
