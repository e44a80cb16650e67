/**
 * Font resolution shared by both tileset generators: walk an ordered list of
 * candidate font files and take the first one present on disk, falling back to
 * the rendering library's built-in bitmap font when none is.
 */
module Fonts {

  /** A loaded font: a TrueType file at a point size, or the library's built-in default. */
  datatype Font = TrueType(path: string, size: nat) | BuiltinDefault

  /**
   * The position of the first path for which present holds, or |paths| when there is none:
   * every earlier path is absent, and the one found is present.
   */
  function FirstExisting(paths: seq<string>, present: string -> bool): (k: nat)
    ensures k <= |paths|
    ensures k < |paths| ==> present(paths[k])
    ensures forall j :: 0 <= j < k ==> !present(paths[j])
    ensures k == |paths| <==> forall j :: 0 <= j < |paths| ==> !present(paths[j])
  {
    if paths == [] then 0
    else if present(paths[0]) then 0
    else
      var k := FirstExisting(paths[1..], present);
      assert forall j :: 1 <= j < |paths| ==> paths[j] == paths[1..][j - 1];
      k + 1
  }
}
