/**
 * What a tileset generator hands to the rendering library: a transparent sheet of
 * a given size and, in order, the text-drawing calls made on it. Rasterisation
 * itself belongs to the library and is not modelled.
 */
module Drawing {
  import opened Fonts

  /** A fill colour with alpha. */
  datatype Rgba = Rgba(r: nat, g: nat, b: nat, a: nat)

  /** One draw.text call: the character drawn with its pen at (x, y) in colour fill. */
  datatype TextCall = TextCall(x: int, y: int, ch: char, fill: Rgba)

  /** A width x height transparent sheet, the font every call uses, and the calls in order. */
  datatype Sheet = Sheet(width: int, height: int, font: Font, calls: seq<TextCall>)
}
