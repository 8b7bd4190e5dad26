/** The output side of `main`: three header lines, then one line per pixel, rows from
    the top of the image (j = IMAGE_HEIGHT - 1) down to j = 0 and, within a row,
    columns from i = 0 up to IMAGE_WIDTH - 1. The colour of a pixel (500 jittered
    samples through `ray_color`, then `format_color`) is the parameter `pixel`. */
module RenderDriver {

  const AspectRatio: real := 3.0 / 2.0
  const ImageWidth: nat := 1200
  const ImageHeight: nat := 800

  /** The source computes the height as `(IMAGE_WIDTH as f64 / ASPECT_RATIO) as u64`;
      the division is exact and the cast truncates. */
  lemma ImageHeightFromAspect()
    ensures ImageHeight == ((ImageWidth as real) / AspectRatio).Floor
    ensures ImageHeight * 3 == ImageWidth * 2
  {
  }

  function Digit(d: nat): (c: char)
    requires d < 10
    ensures '0' <= c <= '9' && (c - '0') as nat == d
  {
    "0123456789"[d]
  }

  /** The value of a string of decimal digits. */
  function DecimalValue(s: string): nat
    requires forall k :: 0 <= k < |s| ==> '0' <= s[k] <= '9'
    decreases |s|
  {
    if s == [] then 0 else 10 * DecimalValue(s[..|s| - 1]) + (s[|s| - 1] - '0') as nat
  }

  /** How `{}` prints an unsigned integer. */
  function DecimalString(n: nat): string {
    if n < 10 then [Digit(n)] else DecimalString(n / 10) + [Digit(n % 10)]
  }

  /** `DecimalString` writes decimal digits without leading zeros, and reading them
      back gives the number. */
  lemma {:induction false} DecimalStringDigits(n: nat)
    ensures var s := DecimalString(n);
      && |s| > 0
      && (forall k :: 0 <= k < |s| ==> '0' <= s[k] <= '9')
      && (|s| > 1 ==> s[0] != '0')
      && DecimalValue(s) == n
  {
    if n >= 10 {
      DecimalStringDigits(n / 10);
      var prefix := DecimalString(n / 10);
      var s := DecimalString(n);
      assert s == prefix + [Digit(n % 10)];
      assert s[..|s| - 1] == prefix;
    }
  }

  /** The three header lines: the format tag, the dimensions and the largest channel value. */
  function Header(): (h: seq<string>)
    ensures h == ["P3", "1200 800", "255"]
  {
    var w, ht := DecimalString(ImageWidth), DecimalString(ImageHeight);
    assert w == "1200";
    assert ht == "800";
    assert w + " " + ht == "1200 800";
    ["P3", w + " " + ht, "255"]
  }

  /** Index, in the output, of the line for pixel (i, j). */
  function LineOf(i: nat, j: nat): nat
    requires i < ImageWidth && j < ImageHeight
  {
    3 + (ImageHeight - 1 - j) * ImageWidth + i
  }

  /** The lines come top row first and left to right within a row: the line of
      (i, j) precedes that of (i', j') exactly when row j is higher, or the same row
      with i to the left of i'. */
  lemma LineOrder(i: nat, j: nat, i': nat, j': nat)
    requires i < ImageWidth && j < ImageHeight && i' < ImageWidth && j' < ImageHeight
    ensures LineOf(i, j) < LineOf(i', j') <==> j > j' || (j == j' && i < i')
    ensures LineOf(i, j) == LineOf(i', j') <==> i == i' && j == j'
  {
  }

  /** Every line after the header belongs to a pixel. */
  lemma LineOwner(p: nat)
    requires 3 <= p < 3 + ImageWidth * ImageHeight
    ensures var i, j := (p - 3) % ImageWidth, ImageHeight - 1 - (p - 3) / ImageWidth;
      0 <= j < ImageHeight && LineOf(i, j) == p
  {
  }

  /** Writing a collected scanline: its lines are appended in order. */
  method WriteLines(file: seq<string>, row: seq<string>) returns (out: seq<string>)
    ensures out == file + row
  {
    out := file;
    for i := 0 to |row|
      invariant out == file + row[..i]
    {
      out := out + [row[i]];
    }
  }

  /** The render loop of `main`: the header, then for each row from the top the
      row's colours, gathered in column order, each written as one line. */
  method Render(pixel: (nat, nat) -> string) returns (lines: seq<string>)
    ensures |lines| == 3 + ImageWidth * ImageHeight
    ensures lines[..3] == ["P3", "1200 800", "255"]
    ensures forall i, j :: 0 <= i < ImageWidth && 0 <= j < ImageHeight ==>
      lines[LineOf(i, j)] == pixel(i, j)
  {
    lines := Header();
    for j := ImageHeight downto 0
      invariant |lines| == 3 + (ImageHeight - j) * ImageWidth
      invariant lines[..3] == ["P3", "1200 800", "255"]
      invariant forall i, jj :: 0 <= i < ImageWidth && j <= jj < ImageHeight ==>
        lines[LineOf(i, jj)] == pixel(i, jj)
    {
      // The parallel map over the columns is collected in column order.
      var scanline := seq(ImageWidth, i requires 0 <= i => pixel(i, j));
      ghost var before := lines;
      lines := WriteLines(lines, scanline);
      assert forall i :: 0 <= i < ImageWidth ==> LineOf(i, j) == |before| + i;
    }
  }
}
