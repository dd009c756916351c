/**
 * Value types shared by the position context and the element writer:
 * pre-measured lines and vectors, positioned page items, pages and margins.
 */
module Layout {

  datatype Option<+T> = None | Some(value: T)

  /** `v || 0` for an optional number: an absent value reads as zero. */
  function OrZero(v: Option<real>): real
  {
    if v.Some? then v.value else 0.0
  }

  /** JavaScript truthiness of an optional number: present and non-zero. */
  predicate Truthy(v: Option<real>)
  {
    v.Some? && v.value != 0.0
  }

  /**
   * The alignment hint of an inline run. The writer reacts only to
   * "right", "center" and "justify"; every other value, "left" and an
   * absent one included, is AlignNone.
   */
  datatype Alignment = AlignNone | AlignRight | AlignCenter | AlignJustify

  /** One inline run of a measured line; `justifyShift` is absent until justified. */
  datatype Inline = Inline(x: real, alignment: Alignment, justifyShift: Option<real>)

  /**
   * A measured text line. `x`/`y` are the local offsets before placement;
   * `width` and `height` are what the measuring pass computed.
   */
  datatype Line = Line(
    x: real,
    y: real,
    width: real,
    height: real,
    newLineForced: bool,
    lastLineInParagraph: bool,
    inlines: seq<Inline>)

  datatype Point = Point(x: real, y: real)

  /** A vector shape, reduced to the coordinates that placement translates. */
  datatype Vector = Vector(points: seq<Point>)

  /** Translation of every coordinate of a vector by (dx, dy). */
  function OffsetVector(v: Vector, dx: real, dy: real): Vector
  {
    Vector(seq(|v.points|, i requires 0 <= i < |v.points| =>
      Point(v.points[i].x + dx, v.points[i].y + dy)))
  }

  /** A positioned page item: `{type: 'line'}` or `{type: 'vector'}`. */
  datatype Item = LineItem(line: Line) | VectorItem(vector: Vector)

  /** Page dimensions; `orientation` is None when the size record has none. */
  datatype PageSize = PageSize(width: real, height: real, orientation: Option<string>)

  datatype Page = Page(items: seq<Item>, pageSize: PageSize)

  datatype Margins = Margins(left: real, right: real, top: real, bottom: real)
}
