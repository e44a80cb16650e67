/**
 * The companion character map written beside each grid tileset: one line per
 * character giving its index (width 4), its grid cell (column, row; width 2
 * each), its code point as four or more upper-case hexadecimal digits after
 * "U+", and the character itself in quotes. The lemmas show that, for the
 * sizes the tilesets use, every field sits at a fixed column and reads back
 * to the value it was written from.
 */
module Charmap {
  import opened Grid

  /** The digit for d < 16: '0'..'9', then upper-case 'A'..'F'. */
  function DigitChar(d: nat): char
    requires d < 16
  {
    if d < 10 then ('0' as int + d) as char else ('A' as int + d - 10) as char
  }

  predicate IsDigit(c: char, base: nat)
  {
    ('0' <= c <= '9' && c as int - '0' as int < base) || ('A' <= c <= 'F' && c as int - 'A' as int + 10 < base)
  }

  /** The value of a digit character; a character that is no digit counts as 0. */
  function DigitValue(c: char): nat
  {
    if '0' <= c <= '9' then c as int - '0' as int
    else if 'A' <= c <= 'F' then c as int - 'A' as int + 10
    else 0
  }

  lemma DigitCharValue(d: nat, base: nat)
    requires d < base <= 16
    ensures IsDigit(DigitChar(d), base) && DigitValue(DigitChar(d)) == d
  {
  }

  lemma DivMod(n: nat, base: nat)
    requires base == 10 || base == 16
    ensures n == (n / base) * base + n % base && 0 <= n % base < base
    ensures n >= base ==> 0 < n / base < n
  {
    if base == 10 {
      assert n / base == n / 10 && n % base == n % 10;
    } else {
      assert n / base == n / 16 && n % base == n % 16;
    }
  }

  /** The numeral of n in the given base, most significant digit first, without padding. */
  function Numeral(n: nat, base: nat): (s: string)
    requires base == 10 || base == 16
    ensures |s| >= 1
    ensures forall k :: 0 <= k < |s| ==> IsDigit(s[k], base)
    ensures n > 0 ==> s[0] != '0'
    decreases n
  {
    if n < base then
      DigitCharValue(n, base);
      [DigitChar(n)]
    else
      var q, r := n / base, n % base;
      DivMod(n, base);
      DigitCharValue(r, base);
      Numeral(q, base) + [DigitChar(r)]
  }

  /** The value of a string of digits, read most significant digit first. */
  function ValueOf(s: string, base: nat): nat
  {
    if s == [] then 0 else ValueOf(s[..|s| - 1], base) * base + DigitValue(s[|s| - 1])
  }

  function Power(b: nat, k: nat): nat
  {
    if k == 0 then 1 else b * Power(b, k - 1)
  }

  lemma {:induction false} NumeralRoundTrip(n: nat, base: nat)
    requires base == 10 || base == 16
    ensures ValueOf(Numeral(n, base), base) == n
    decreases n
  {
    if n < base {
      DigitCharValue(n, base);
    } else {
      var s := Numeral(n, base);
      var q, r := n / base, n % base;
      assert s[..|s| - 1] == Numeral(q, base) && s[|s| - 1] == DigitChar(r);
      DigitCharValue(r, base);
      DivMod(n, base);
      NumeralRoundTrip(q, base);
    }
  }

  lemma DivBelow(n: nat, base: nat, p: nat)
    requires (base == 10 || base == 16) && n < base * p
    ensures 0 < n / base < p || n < base
  {
    if base == 10 {
      assert n / base == n / 10 && base * p == 10 * p;
    } else {
      assert n / base == n / 16 && base * p == 16 * p;
    }
  }

  lemma {:induction false} NumeralWidth(n: nat, base: nat, k: nat)
    requires (base == 10 || base == 16) && k >= 1 && n < Power(base, k)
    ensures |Numeral(n, base)| <= k
    decreases k
  {
    if n >= base {
      var p := Power(base, k - 1);
      DivBelow(n, base, p);
      assert p != Power(base, 0);
      NumeralWidth(n / base, base, k - 1);
    }
  }

  /** s right-aligned in a field of the given width, filled on the left; never truncated. */
  function PadLeft(s: string, width: nat, fill: char): (r: string)
    ensures |r| == if |s| >= width then |s| else width
    ensures r[|r| - |s|..] == s
    ensures forall k :: 0 <= k < |r| - |s| ==> r[k] == fill
  {
    if |s| >= width then s else seq(width - |s|, _ => fill) + s
  }

  /** s without its leading run of c. */
  function StripLeft(s: string, c: char): string
  {
    if s != [] && s[0] == c then StripLeft(s[1..], c) else s
  }

  lemma {:induction false} LeadingZerosValue(zeros: string, s: string, base: nat)
    requires forall k :: 0 <= k < |zeros| ==> zeros[k] == '0'
    ensures ValueOf(zeros + s, base) == ValueOf(s, base)
    decreases |s|
  {
    if s == [] {
      assert zeros + s == zeros;
      ZerosValue(zeros, base);
    } else {
      assert (zeros + s)[..|zeros + s| - 1] == zeros + s[..|s| - 1];
      LeadingZerosValue(zeros, s[..|s| - 1], base);
    }
  }

  lemma {:induction false} ZerosValue(zeros: string, base: nat)
    requires forall k :: 0 <= k < |zeros| ==> zeros[k] == '0'
    ensures ValueOf(zeros, base) == 0
    decreases |zeros|
  {
    if zeros != [] {
      ZerosValue(zeros[..|zeros| - 1], base);
    }
  }

  /** Zero padding does not change the value a numeral reads back to. */
  lemma ZeroPaddingKeepsValue(n: nat, base: nat, width: nat)
    requires base == 10 || base == 16
    ensures ValueOf(PadLeft(Numeral(n, base), width, '0'), base) == n
  {
    var s := Numeral(n, base);
    var r := PadLeft(s, width, '0');
    var zeros := r[..|r| - |s|];
    assert r == zeros + s;
    LeadingZerosValue(zeros, s, base);
    NumeralRoundTrip(n, base);
  }

  lemma {:induction false} StripSpaces(spaces: string, s: string)
    requires forall k :: 0 <= k < |spaces| ==> spaces[k] == ' '
    requires s != [] && s[0] != ' '
    ensures StripLeft(spaces + s, ' ') == s
    decreases |spaces|
  {
    if spaces != [] {
      assert (spaces + s)[1..] == spaces[1..] + s;
      StripSpaces(spaces[1..], s);
    }
  }

  /** Space padding is removed again by stripping leading spaces, leaving the numeral. */
  lemma SpacePaddingStrips(n: nat, base: nat, width: nat)
    requires base == 10 || base == 16
    ensures StripLeft(PadLeft(Numeral(n, base), width, ' '), ' ') == Numeral(n, base)
  {
    var s := Numeral(n, base);
    var r := PadLeft(s, width, ' ');
    assert IsDigit(s[0], base);
    assert r == r[..|r| - |s|] + s;
    StripSpaces(r[..|r| - |s|], s);
  }

  /** One line of the character map, for the character at index i in grid cell (col, row). */
  function CharmapLine(i: nat, col: nat, row: nat, ch: char): string
  {
    PadLeft(Numeral(i, 10), 4, ' ') + "  (" + PadLeft(Numeral(col, 10), 2, ' ') + ","
      + PadLeft(Numeral(row, 10), 2, ' ') + ")  U+" + PadLeft(Numeral(ch as int, 16), 4, '0')
      + "     '" + [ch] + "'\n"
  }

  /** Where each piece of a line sits, given the widths of the four padded fields. */
  lemma LineLayout(a: string, b: string, c: string, d: string, ch: char)
    requires |a| == 4 && |b| == 2 && |c| == 2 && |d| == 4
    ensures var line := a + "  (" + b + "," + c + ")  U+" + d + "     '" + [ch] + "'\n";
            && |line| == 30
            && line[0..4] == a && line[4..7] == "  (" && line[7..9] == b && line[9] == ','
            && line[10..12] == c && line[12..17] == ")  U+" && line[17..21] == d
            && line[21..27] == "     '" && line[27] == ch && line[28..] == "'\n"
  {
  }

  lemma PowerFacts()
    ensures Power(10, 2) == 100 && Power(10, 4) == 10000 && Power(16, 4) == 0x10000
  {
    assert Power(10, 1) == 10 && Power(16, 1) == 16;
    assert Power(10, 2) == 100 && Power(16, 2) == 256;
    assert Power(10, 3) == 1000 && Power(16, 3) == 4096;
  }

  /**
   * For an index below 10000, a cell below (100, 100) and a code point below U+10000 the line
   * is 30 characters long and every field reads back at a fixed column.
   */
  lemma CharmapLineFields(i: nat, col: nat, row: nat, ch: char)
    requires i < 10000 && col < 100 && row < 100 && ch as int < 0x10000
    ensures var line := CharmapLine(i, col, row, ch);
            && |line| == 30
            && ValueOf(StripLeft(line[0..4], ' '), 10) == i
            && line[4..7] == "  ("
            && ValueOf(StripLeft(line[7..9], ' '), 10) == col
            && line[9] == ','
            && ValueOf(StripLeft(line[10..12], ' '), 10) == row
            && line[12..17] == ")  U+"
            && ValueOf(line[17..21], 16) == ch as int
            && line[21..27] == "     '"
            && line[27] == ch
            && line[28..] == "'\n"
  {
    PowerFacts();
    NumeralWidth(i, 10, 4);
    NumeralWidth(col, 10, 2);
    NumeralWidth(row, 10, 2);
    NumeralWidth(ch as int, 16, 4);
    var a := PadLeft(Numeral(i, 10), 4, ' ');
    var b := PadLeft(Numeral(col, 10), 2, ' ');
    var c := PadLeft(Numeral(row, 10), 2, ' ');
    var d := PadLeft(Numeral(ch as int, 16), 4, '0');
    LineLayout(a, b, c, d, ch);
    SpacePaddingStrips(i, 10, 4);
    SpacePaddingStrips(col, 10, 2);
    SpacePaddingStrips(row, 10, 2);
    NumeralRoundTrip(i, 10);
    NumeralRoundTrip(col, 10);
    NumeralRoundTrip(row, 10);
    ZeroPaddingKeepsValue(ch as int, 16, 4);
  }

  /** The body of the character map: line i describes chars[i] in its row-major cell. */
  function CharmapLines(chars: seq<char>, perRow: nat): (lines: seq<string>)
    requires perRow > 0
    ensures |lines| == |chars|
  {
    seq(|chars|, i requires 0 <= i < |chars| =>
      var cell := CellOf(i, perRow);
      CharmapLine(i, cell.0, cell.1, chars[i]))
  }

  /** The whole map: a title, a rule of 60 '=', the column heading, a rule of 60 '-', the lines. */
  function CharmapFile(title: string, chars: seq<char>, perRow: nat): (file: seq<string>)
    requires perRow > 0
    ensures |file| == 4 + |chars|
    ensures file[0] == title + "\n"
    ensures forall i :: 0 <= i < |chars| ==> file[4 + i] == CharmapLines(chars, perRow)[i]
  {
    [title + "\n", seq(60, _ => '=') + "\n", "Index  Grid    Unicode  Character\n", seq(60, _ => '-') + "\n"]
      + CharmapLines(chars, perRow)
  }

  /**
   * In a map of at most 10000 characters below U+10000 on a grid of at most 100 columns and
   * 100 rows, line i is 30 characters long and reads back to i, to i's cell and to chars[i].
   */
  lemma CharmapReadsBack(chars: seq<char>, perRow: nat, i: nat)
    requires 0 < perRow <= 100 && |chars| <= 10000 && Rows(|chars|, perRow) <= 100
    requires forall c :: c in chars ==> c as int < 0x10000
    requires i < |chars|
    ensures var line := CharmapLines(chars, perRow)[i];
            var cell := CellOf(i, perRow);
            && |line| == 30
            && ValueOf(StripLeft(line[0..4], ' '), 10) == i
            && ValueOf(StripLeft(line[7..9], ' '), 10) == cell.0
            && ValueOf(StripLeft(line[10..12], ' '), 10) == cell.1
            && ValueOf(line[17..21], 16) == chars[i] as int
            && line[27] == chars[i]
  {
    var cell := CellOf(i, perRow);
    CellInGrid(i, |chars|, perRow);
    assert chars[i] in chars;
    CharmapLineFields(i, cell.0, cell.1, chars[i]);
  }
}
