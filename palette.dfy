/** The fixed colour palette of the status-bar commands (the COLORS dictionary). */
module Palette {
  import opened Wrappers

  /** The eight keys of the palette. */
  datatype Colour = Black | Blue | White | Green | Red | Yellow | Grey | Gold

  /** The dictionary key under which a colour is stored. */
  function Key(c: Colour): string
  {
    match c
    case Black => "black"
    case Blue => "blue"
    case White => "white"
    case Green => "green"
    case Red => "red"
    case Yellow => "yellow"
    case Grey => "grey"
    case Gold => "gold"
  }

  /** The palette itself: colour name to "#rrggbb" code. */
  const COLORS: map<string, string> := map[
    "black" := "#011627",
    "blue" := "#05668d",
    "white" := "#fdfffc",
    "green" := "#2ec4b6",
    "red" := "#e71d36",
    "yellow" := "#ff9f1c",
    "grey" := "#7c7c7c",
    "gold" := "#efc88b"
  ]

  predicate IsHexDigit(ch: char)
  {
    '0' <= ch <= '9' || 'a' <= ch <= 'f'
  }

  /** A colour code as the markup expects it: '#' followed by six lower-case hex digits. */
  predicate IsHexColour(h: string)
  {
    |h| == 7 && h[0] == '#' && forall i :: 1 <= i < 7 ==> IsHexDigit(h[i])
  }

  /** The code of a colour, as the palette stores it. */
  function Hex(c: Colour): (h: string)
    ensures IsHexColour(h)
  {
    match c
    case Black => "#011627"
    case Blue => "#05668d"
    case White => "#fdfffc"
    case Green => "#2ec4b6"
    case Red => "#e71d36"
    case Yellow => "#ff9f1c"
    case Grey => "#7c7c7c"
    case Gold => "#efc88b"
  }

  /** COLORS.get(key) finds every colour under its key, with the code Hex gives. */
  lemma PaletteEntries(c: Colour)
    ensures Key(c) in COLORS && COLORS[Key(c)] == Hex(c)
  {
  }

  /** Reads a colour code back to the palette entry it belongs to. */
  function ColourOfHex(h: string): (r: Option<Colour>)
    ensures r.Some? ==> Hex(r.value) == h
  {
    if h == "#011627" then Some(Black)
    else if h == "#05668d" then Some(Blue)
    else if h == "#fdfffc" then Some(White)
    else if h == "#2ec4b6" then Some(Green)
    else if h == "#e71d36" then Some(Red)
    else if h == "#ff9f1c" then Some(Yellow)
    else if h == "#7c7c7c" then Some(Grey)
    else if h == "#efc88b" then Some(Gold)
    else None
  }

  /** No two palette entries share a code, so a code names its colour unambiguously. */
  lemma ColourOfHexInverse(c: Colour)
    ensures ColourOfHex(Hex(c)) == Some(c)
  {
  }

  /** Distinct colours render as distinct codes. */
  lemma HexInjective(a: Colour, b: Colour)
    requires Hex(a) == Hex(b)
    ensures a == b
  {
    ColourOfHexInverse(a);
    ColourOfHexInverse(b);
  }
}
