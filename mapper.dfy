/**
 * svgmapper/mapper.py: SVGPart, one svg document scaled to a requested size
 * and optionally turned a quarter turn, and SVGMapper, the canvas that
 * collects placements of parts and composes them into one svg figure.
 *
 * Dimension extraction (librsvg) and XML parsing (lxml) are parameters:
 * an Extractor gives the size of a document at a dpi, or None where
 * svg_dimensions raises; a Parser gives the root node, or None where
 * etree.fromstring raises.
 */
module Mapper {
  import opened Wrappers
  import opened Transform
  import opened Geometry

  const DefaultMarginWidth: real := 10.0
  const DefaultBorderWidth: real := 0.1
  const DefaultBorderColor: string := "blue"
  const DefaultSvgDpi: real := 90.0

  /** Why adding a placement fails, after the exception the source raises. */
  datatype Error =
    /** An AssertionError: a negative position, or a size that is not positive. */
    | BadArgument
    /** svg_dimensions raised ValueError: the document's size is unknown. */
    | NoDimensions
    /** ValueError("Placement out of bounds"). */
    | OutOfBounds
    /** etree.fromstring raised: the document does not parse. */
    | BadDocument

  type Extractor = (Bytes, real) -> Option<(real, real)>

  type Parser = Bytes -> Option<Node>

  /** Python's truth value of an optional number: present and non-zero. */
  predicate Given(v: Option<real>) { v.Some? && v.value != 0.0 }

  /** `v or fallback` for an optional number. */
  function Resolve(v: Option<real>, fallback: real): real {
    if Given(v) then v.value else fallback
  }

  /**
   * An SVGPart: the document's own size, the size it is drawn at, whether
   * it is turned a quarter turn, and the nested svg node that draws it.
   */
  datatype Part = Part(width: real, height: real, scaledWidth: real, scaledHeight: real,
                       rotate: bool, svg: Node)

  /** An entry of SVGMapper.parts: a part, its position on the canvas, and its optional id. */
  datatype Placement = Placement(part: Part, x: real, y: real, uid: Option<string>)

  /**
   * SVGPart.__init__: the original size is the one given when both sides are
   * given and non-zero, otherwise the extracted one; the drawn size defaults
   * side by side to the original size; the nested svg node has the drawn
   * size, a viewBox of the original size, and the parsed document as its one
   * child.
   */
  function PartOf(svg: Bytes, width: Option<real>, height: Option<real>,
                  scaledWidth: Option<real>, scaledHeight: Option<real>,
                  rotate: bool, dpi: real, extract: Extractor, parse: Parser): (r: Result<Part, Error>)
    ensures r.Success? <==> ((Given(width) && Given(height)) || extract(svg, dpi).Some?) && parse(svg).Some?
    ensures r.Failure? && !(Given(width) && Given(height)) && extract(svg, dpi).None? ==> r.error == NoDimensions
    ensures r.Failure? && ((Given(width) && Given(height)) || extract(svg, dpi).Some?) ==> r.error == BadDocument
    ensures r.Success? && Given(width) && Given(height) ==>
              r.value.width == width.value && r.value.height == height.value
    ensures r.Success? && !(Given(width) && Given(height)) ==>
              (r.value.width, r.value.height) == extract(svg, dpi).value
    ensures r.Success? ==> r.value.rotate == rotate
    ensures r.Success? && Given(scaledWidth) ==> r.value.scaledWidth == scaledWidth.value
    ensures r.Success? && !Given(scaledWidth) ==> r.value.scaledWidth == r.value.width
    ensures r.Success? && Given(scaledHeight) ==> r.value.scaledHeight == scaledHeight.value
    ensures r.Success? && !Given(scaledHeight) ==> r.value.scaledHeight == r.value.height
    ensures r.Success? ==>
              && r.value.svg.tag == SvgTag && r.value.svg.transform == []
              && r.value.svg.children == [parse(svg).value]
              && r.value.svg.attrs == map["width" := Num(r.value.scaledWidth),
                                          "height" := Num(r.value.scaledHeight),
                                          "viewBox" := Coords(0.0, 0.0, r.value.width, r.value.height)]
  {
    var dims := if Given(width) && Given(height) then Some((width.value, height.value)) else extract(svg, dpi);
    if dims.None? then Failure(NoDimensions)
    else if parse(svg).None? then Failure(BadDocument)
    else
      var w := dims.value.0;
      var h := dims.value.1;
      var sw := Resolve(scaledWidth, w);
      var sh := Resolve(scaledHeight, h);
      Success(Part(w, h, sw, sh, rotate,
                   Node(SvgTag, map["width" := Num(sw), "height" := Num(sh),
                                    "viewBox" := Coords(0.0, 0.0, w, h)],
                        [], [parse(svg).value])))
  }

  /** SVGPart.__init__, building the nested svg through the element wrappers. */
  method NewPart(svg: Bytes, width: Option<real>, height: Option<real>,
                 scaledWidth: Option<real>, scaledHeight: Option<real>,
                 rotate: bool, dpi: real, extract: Extractor, parse: Parser) returns (r: Result<Part, Error>)
    ensures r == PartOf(svg, width, height, scaledWidth, scaledHeight, rotate, dpi, extract, parse)
  {
    var w, h := 0.0, 0.0;
    if !Given(width) || !Given(height) {
      var dims := extract(svg, dpi);
      if dims.None? {
        return Failure(NoDimensions);
      }
      w, h := dims.value.0, dims.value.1;
    } else {
      w, h := width.value, height.value;
    }
    var sw := Resolve(scaledWidth, w);
    var sh := Resolve(scaledHeight, h);
    var figure := SVGFigure.FromString(svg, parse);
    if figure.None? {
      return Failure(BadDocument);
    }
    var element := new FigureElement.SvgOf([Figure(figure.value)], sw, sh);
    assert element.root.children == [parse(svg).value];
    element.ViewBox(0.0, 0.0, w, h);
    r := Success(Part(w, h, sw, sh, rotate, element.root));
  }

  /** The part's size on the canvas: width and height exchange places when it is turned. */
  function Extent(p: Part): (real, real) {
    if p.rotate then (p.scaledHeight, p.scaledWidth) else (p.scaledWidth, p.scaledHeight)
  }

  /**
   * The rectangle a placement claims, margins included: at (x, y), the
   * drawn size (turned when rotated) grown by the margin on every side.
   */
  function Footprint(x: real, y: real, w: real, h: real, rotate: bool, margin: real): Box {
    var ew := if rotate then h else w;
    var eh := if rotate then w else h;
    Box(x, y, x + ew + 2.0 * margin, y + eh + 2.0 * margin)
  }

  /** A rectangle shrunk by d on every side. */
  function Inset(b: Box, d: real): Box {
    Box(b.left + d, b.top + d, b.right - d, b.bottom - d)
  }

  /** The nested svg's viewport in its parent's coordinates: its drawn size at the origin. */
  function Viewport(p: Part): Box {
    Box(0.0, 0.0, p.scaledWidth, p.scaledHeight)
  }

  /** How far generate_group shifts a turned part back up: its drawn height. */
  function Compensation(p: Part): real {
    if p.rotate then p.scaledHeight else 0.0
  }

  /**
   * The transform generate_group gives the part's inner group, as the source
   * has it: a quarter turn about (margin, margin) when rotated, then the
   * margin shift, which is skipped when the margin is not positive.
   */
  function WrittenPartTransform(p: Part, margin: real): (r: seq<Op>)
    ensures |r| == (if p.rotate then 1 else 0) + (if margin > 0.0 then 1 else 0)
    ensures p.rotate ==> r[0] == Op.Rotate(90.0, margin, margin)
    ensures margin > 0.0 ==> r[|r| - 1] == Translate(margin, margin - (if p.rotate then p.scaledHeight else 0.0))
  {
    (if p.rotate then [Op.Rotate(90.0, margin, margin)] else [])
    + (if margin > 0.0 then [Translate(margin, margin - Compensation(p))] else [])
  }

  /**
   * The inner group's transform with the shift also made when the part is
   * turned, so the rotation is always compensated. Where the margin is
   * positive or the part is not turned it is the transform the source
   * writes.
   */
  function PartTransform(p: Part, margin: real): (r: seq<Op>)
    ensures margin > 0.0 || !p.rotate ==> r == WrittenPartTransform(p, margin)
    ensures p.rotate && margin <= 0.0 ==> r == WrittenPartTransform(p, margin) + [Translate(margin, margin - p.scaledHeight)]
    ensures p.rotate ==> r == [Op.Rotate(90.0, margin, margin), Translate(margin, margin - p.scaledHeight)]
    ensures !p.rotate ==> r == (if margin > 0.0 then [Translate(margin, margin)] else [])
  {
    (if p.rotate then [Op.Rotate(90.0, margin, margin)] else [])
    + (if margin > 0.0 || p.rotate then [Translate(margin, margin - Compensation(p))] else [])
  }

  /**
   * The border generate_group draws: at (bw/2, bw/2), as wide and high as the
   * turned extent plus both margins less one stroke width.
   */
  function BorderRect(p: Part, margin: real, borderWidth: real, color: string): Node {
    var (ew, eh) := Extent(p);
    RectNode(borderWidth / 2.0, borderWidth / 2.0,
             ew + 2.0 * margin - borderWidth, eh + 2.0 * margin - borderWidth,
             borderWidth, color)
  }

  /**
   * The group generate_group returns: the inner group holding the part's
   * nested svg, then the border rectangle when the border width is positive.
   */
  function PartGroup(p: Part, margin: real, borderWidth: real, color: string): (r: Node)
    ensures r.tag == GroupTag && r.attrs == map[] && r.transform == []
    ensures |r.children| == (if borderWidth > 0.0 then 2 else 1)
    ensures r.children[0] == Node(GroupTag, map[], WrittenPartTransform(p, margin), [p.svg])
    ensures borderWidth > 0.0 ==> r.children[1].tag == RectTag
  {
    var inner := Node(GroupTag, map[], WrittenPartTransform(p, margin), [p.svg]);
    Node(GroupTag, map[], [],
         [inner] + (if borderWidth > 0.0 then [BorderRect(p, margin, borderWidth, color)] else []))
  }

  /** SVGPart.generate_group, building the group through the element wrappers. */
  method GenerateGroup(p: Part, margin: real, borderWidth: real, color: string) returns (g: FigureElement)
    ensures fresh(g) && g.root == PartGroup(p, margin, borderWidth, color)
  {
    var partGroup := TurnedGroup(p, margin);
    var elements := [Element(partGroup)];
    if borderWidth > 0.0 {
      var rect := Border(p, margin, borderWidth, color);
      elements := elements + [Element(rect)];
    }
    g := new FigureElement.Group(elements);
  }

  /** The first half of generate_group: the part's svg in a group, turned and shifted. */
  method TurnedGroup(p: Part, margin: real) returns (partGroup: FigureElement)
    ensures fresh(partGroup) && partGroup.root == Node(GroupTag, map[], WrittenPartTransform(p, margin), [p.svg])
  {
    partGroup := GroupOf(p.svg);
    var compensation := 0.0;
    if p.rotate {
      partGroup.Rotate(90.0, margin, margin);
      compensation := p.scaledHeight;
    }
    if margin > 0.0 {
      partGroup.MoveTo(margin, margin - compensation);
    }
  }

  /** `GroupElement([svg])`: a new group around the wrapped node. */
  method GroupOf(svg: Node) returns (g: FigureElement)
    ensures fresh(g) && g.root == Node(GroupTag, map[], [], [svg])
  {
    var element := new FigureElement.Wrap(svg);
    g := new FigureElement.Group([Element(element)]);
  }

  /** The second half of generate_group: the border rectangle, its sides exchanged when turned. */
  method Border(p: Part, margin: real, borderWidth: real, color: string) returns (rect: FigureElement)
    ensures fresh(rect) && rect.root == BorderRect(p, margin, borderWidth, color)
  {
    var rectWidth := p.scaledWidth + 2.0 * margin - borderWidth;
    var rectHeight := p.scaledHeight + 2.0 * margin - borderWidth;
    var borderCompensation := borderWidth / 2.0;
    if p.rotate {
      rectWidth, rectHeight := rectHeight, rectWidth;
    }
    rect := new FigureElement.Rect(borderCompensation, borderCompensation,
                                   rectWidth, rectHeight, borderWidth, color);
  }

  /**
   * The group _place_parts puts on the canvas for one placement: the part's
   * group, with the uid as its id exactly when the uid is non-empty, moved to
   * the placement's position.
   */
  function PlacedGroup(pl: Placement, margin: real, borderWidth: real, color: string): (r: Node)
    ensures r.tag == GroupTag && r.transform == [Translate(pl.x, pl.y)]
    ensures "id" in r.attrs <==> Truthy(pl.uid)
    ensures Truthy(pl.uid) ==> r.attrs["id"] == Text(pl.uid.value)
    ensures r.children == PartGroup(pl.part, margin, borderWidth, color).children
  {
    var g := PartGroup(pl.part, margin, borderWidth, color);
    var named := if Truthy(pl.uid) then g.(attrs := g.attrs["id" := Text(pl.uid.value)]) else g;
    named.(transform := named.transform + [Translate(pl.x, pl.y)])
  }

  /**
   * The outline a border rectangle paints: its box grown by half the stroke
   * width on every side; None for a node that is not such a rectangle.
   */
  function RectOutline(n: Node): Option<Box> {
    if && n.tag == RectTag
       && "x" in n.attrs && n.attrs["x"].Num? && "y" in n.attrs && n.attrs["y"].Num?
       && "width" in n.attrs && n.attrs["width"].Num? && "height" in n.attrs && n.attrs["height"].Num?
       && "style" in n.attrs && n.attrs["style"].Stroke?
    then
      var x, y := n.attrs["x"].num, n.attrs["y"].num;
      var w, h := n.attrs["width"].num, n.attrs["height"].num;
      var half := n.attrs["style"].strokeWidth / 2.0;
      Some(Box(x - half, y - half, x + w + half, y + h + half))
    else None
  }

  /**
   * Where a placed group puts its part's nested svg viewport on the canvas.
   * The picture itself is fitted inside this viewport (preserveAspectRatio).
   */
  function ViewportBox(g: Node, p: Part): Option<Box> {
    if g.children == [] then None
    else MapBox(g.transform + g.children[0].transform, Viewport(p))
  }

  class SVGMapper {
    var parts: seq<Placement>
    var width: real
    var height: real
    var borderWidth: real
    var borderColor: string
    var marginWidth: real
    var dpi: real

    /** A canvas of the given size, with no parts and the default border and margin. */
    constructor (width: real, height: real, dpi: real)
      ensures parts == [] && this.width == width && this.height == height && this.dpi == dpi
      ensures borderWidth == DefaultBorderWidth && borderColor == DefaultBorderColor
      ensures marginWidth == DefaultMarginWidth
      ensures Valid()
    {
      parts := [];
      this.width := width;
      this.height := height;
      borderWidth := DefaultBorderWidth;
      borderColor := DefaultBorderColor;
      marginWidth := DefaultMarginWidth;
      this.dpi := dpi;
    }

    /** SVGMapper(width, height) with the dpi argument left out: the default svg dpi. */
    constructor Sized(width: real, height: real)
      ensures parts == [] && this.width == width && this.height == height && dpi == DefaultSvgDpi
      ensures borderWidth == DefaultBorderWidth && borderColor == DefaultBorderColor
      ensures marginWidth == DefaultMarginWidth
      ensures Valid()
    {
      parts := [];
      this.width := width;
      this.height := height;
      borderWidth := DefaultBorderWidth;
      borderColor := DefaultBorderColor;
      marginWidth := DefaultMarginWidth;
      dpi := DefaultSvgDpi;
    }

    /** The canvas as a rectangle. */
    function Canvas(): Box
      reads this
    {
      Box(0.0, 0.0, width, height)
    }

    /**
     * _fits_inside: a rotated part is checked with its sides exchanged; the
     * check is that the part, grown by the margin on every side, ends within
     * the canvas. For a position inside the canvas that is containment of the
     * footprint.
     */
    function FitsInside(x: real, y: real, w: real, h: real, rotate: bool): (r: bool)
      reads this
      ensures x >= 0.0 && y >= 0.0 ==>
                (r <==> Contains(Canvas(), Footprint(x, y, w, h, rotate, marginWidth)))
      decreases rotate
    {
      if rotate then FitsInside(x, y, h, w, false)
      else
        var fullWidth := w + 2.0 * marginWidth;
        var fullHeight := h + 2.0 * marginWidth;
        x + fullWidth <= width && y + fullHeight <= height
    }

    /** What add_svg_fromstring checks of every part it stores, under the current settings. */
    predicate Placed(pl: Placement)
      reads this
    {
      && pl.x >= 0.0 && pl.y >= 0.0
      && pl.part.scaledWidth > 0.0 && pl.part.scaledHeight > 0.0
      && FitsInside(pl.x, pl.y, pl.part.scaledWidth, pl.part.scaledHeight, pl.part.rotate)
    }

    /** Every stored placement passed the checks for the current canvas size and margin. */
    predicate Valid()
      reads this
    {
      forall i | 0 <= i < |parts| :: Placed(parts[i])
    }

    /**
     * The checks of add_svg_fromstring, in their order, and the part it
     * stores: the position must not be negative; the document's size must be
     * extractable; a missing or zero width or height falls back to the
     * extracted one, and the result must be positive; the placement must fit;
     * the document must parse. The part keeps the extracted size as its
     * original size and the resolved size as its drawn size.
     */
    function Admit(svg: Bytes, x: real, y: real, width: Option<real>, height: Option<real>,
                   rotate: bool, extract: Extractor, parse: Parser): (r: Result<Part, Error>)
      reads this
      ensures !(x >= 0.0 && y >= 0.0) ==> r == Failure(BadArgument)
      ensures x >= 0.0 && y >= 0.0 && extract(svg, dpi).None? ==> r == Failure(NoDimensions)
      ensures x >= 0.0 && y >= 0.0 && extract(svg, dpi).Some? ==>
                var w := Resolve(width, extract(svg, dpi).value.0);
                var h := Resolve(height, extract(svg, dpi).value.1);
                && (!(w > 0.0 && h > 0.0) ==> r == Failure(BadArgument))
                && (w > 0.0 && h > 0.0 && !FitsInside(x, y, w, h, rotate) ==> r == Failure(OutOfBounds))
                && (w > 0.0 && h > 0.0 && FitsInside(x, y, w, h, rotate) && parse(svg).None? ==> r == Failure(BadDocument))
                && (w > 0.0 && h > 0.0 && FitsInside(x, y, w, h, rotate) && parse(svg).Some? ==>
                      && r.Success?
                      && (r.value.width, r.value.height) == extract(svg, dpi).value
                      && r.value.scaledWidth == w && r.value.scaledHeight == h
                      && r.value.rotate == rotate
                      && r.value.svg.children == [parse(svg).value])
      ensures r.Success? ==> Placed(Placement(r.value, x, y, None))
    {
      if !(x >= 0.0 && y >= 0.0) then Failure(BadArgument)
      else if extract(svg, dpi).None? then Failure(NoDimensions)
      else
        var svgWidth := extract(svg, dpi).value.0;
        var svgHeight := extract(svg, dpi).value.1;
        var w := Resolve(width, svgWidth);
        var h := Resolve(height, svgHeight);
        if !(w > 0.0 && h > 0.0) then Failure(BadArgument)
        else if !FitsInside(x, y, w, h, rotate) then Failure(OutOfBounds)
        else PartOf(svg, Some(svgWidth), Some(svgHeight), Some(w), Some(h), rotate, dpi, extract, parse)
    }

    /**
     * add_svg_fromstring: on success exactly one placement is appended and
     * the earlier ones are kept; on failure nothing changes. Only `parts` is
     * written, so the checks every stored part passed still hold.
     */
    method AddSvgFromString(svg: Bytes, x: real, y: real, width: Option<real>, height: Option<real>,
                            rotate: bool, uid: Option<string>, extract: Extractor, parse: Parser)
      returns (r: Outcome<Error>)
      modifies this`parts
      ensures old(Admit(svg, x, y, width, height, rotate, extract, parse)).Failure? ==>
                r == Fail(old(Admit(svg, x, y, width, height, rotate, extract, parse)).error)
                && parts == old(parts)
      ensures old(Admit(svg, x, y, width, height, rotate, extract, parse)).Success? ==>
                r == Pass
                && parts == old(parts) + [Placement(old(Admit(svg, x, y, width, height, rotate, extract, parse)).value, x, y, uid)]
      ensures old(Valid()) ==> Valid()
    {
      if !(x >= 0.0 && y >= 0.0) {
        return Fail(BadArgument);
      }
      var dims := extract(svg, dpi);
      if dims.None? {
        return Fail(NoDimensions);
      }
      var svgWidth, svgHeight := dims.value.0, dims.value.1;
      var w := Resolve(width, svgWidth);
      var h := Resolve(height, svgHeight);
      if !(w > 0.0 && h > 0.0) {
        return Fail(BadArgument);
      }
      if !FitsInside(x, y, w, h, rotate) {
        return Fail(OutOfBounds);
      }
      var part := NewPart(svg, Some(svgWidth), Some(svgHeight), Some(w), Some(h), rotate, dpi, extract, parse);
      if part.Failure? {
        return Fail(part.error);
      }
      parts := parts + [Placement(part.value, x, y, uid)];
      r := Pass;
    }

    /**
     * add_svg_fromfile, given the file's content: it hands its width to the
     * height parameter of add_svg_fromstring and its height to the width
     * parameter.
     */
    method AddSvgFromFile(content: Bytes, x: real, y: real, width: Option<real>, height: Option<real>,
                          rotate: bool, uid: Option<string>, extract: Extractor, parse: Parser)
      returns (r: Outcome<Error>)
      modifies this`parts
      ensures old(Admit(content, x, y, height, width, rotate, extract, parse)).Failure? ==>
                r == Fail(old(Admit(content, x, y, height, width, rotate, extract, parse)).error)
                && parts == old(parts)
      ensures old(Admit(content, x, y, height, width, rotate, extract, parse)).Success? ==>
                r == Pass
                && parts == old(parts) + [Placement(old(Admit(content, x, y, height, width, rotate, extract, parse)).value, x, y, uid)]
      ensures old(Valid()) ==> Valid()
    {
      r := AddSvgFromString(content, x, y, height, width, rotate, uid, extract, parse);
    }

    /** add_svg_fromfile with width and height passed to the parameters of the same name. */
    method AddSvgFromFileIntended(content: Bytes, x: real, y: real, width: Option<real>, height: Option<real>,
                                  rotate: bool, uid: Option<string>, extract: Extractor, parse: Parser)
      returns (r: Outcome<Error>)
      modifies this`parts
      ensures old(Admit(content, x, y, width, height, rotate, extract, parse)).Failure? ==>
                r == Fail(old(Admit(content, x, y, width, height, rotate, extract, parse)).error)
                && parts == old(parts)
      ensures old(Admit(content, x, y, width, height, rotate, extract, parse)).Success? ==>
                r == Pass
                && parts == old(parts) + [Placement(old(Admit(content, x, y, width, height, rotate, extract, parse)).value, x, y, uid)]
      ensures old(Valid()) ==> Valid()
    {
      r := AddSvgFromString(content, x, y, width, height, rotate, uid, extract, parse);
    }

    /** The groups _place_parts appends, one per stored placement, in insertion order. */
    function Composed(): (r: seq<Node>)
      reads this
      ensures |r| == |parts|
      ensures forall i | 0 <= i < |parts| :: r[i] == PlacedGroup(parts[i], marginWidth, borderWidth, borderColor)
    {
      seq(|parts|, i requires 0 <= i < |parts| reads this =>
            PlacedGroup(parts[i], marginWidth, borderWidth, borderColor))
    }

    /**
     * _place_parts: builds each placement's group, names it, moves it, and
     * appends the list of groups to the canvas as one new group.
     */
    method PlaceParts(surf: SVGFigure)
      modifies surf
      ensures surf.root == old(surf.root).(children := old(surf.root.children) + [Node(GroupTag, map[], [], Composed())])
    {
      var groups: seq<Content> := [];
      for i := 0 to |parts|
        invariant |groups| == i
        invariant forall j | 0 <= j < i :: groups[j].Element? && fresh(groups[j].elem)
        invariant forall j | 0 <= j < i ::
                    groups[j].elem.root == PlacedGroup(parts[j], marginWidth, borderWidth, borderColor)
        invariant surf.root == old(surf.root)
      {
        var group := PlaceOne(parts[i]);
        groups := groups + [Element(group)];
      }
      ghost var kids := Nodes(groups);
      assert kids == Composed();
      surf.Append(Many(groups));
    }

    /** One turn of _place_parts' loop: the part's group, named when the uid is non-empty, then moved. */
    method PlaceOne(pl: Placement) returns (group: FigureElement)
      ensures fresh(group) && group.root == PlacedGroup(pl, marginWidth, borderWidth, borderColor)
    {
      group := GenerateGroup(pl.part, marginWidth, borderWidth, borderColor);
      if Truthy(pl.uid) {
        group.Id(pl.uid.value);
      }
      group.MoveTo(pl.x, pl.y);
    }

    /**
     * to_svg without a path: a new figure sized as the canvas, width and height
     * formatted by `show`, holding one group with every placed part.
     */
    method ToSvg(show: real -> string) returns (surf: SVGFigure)
      ensures fresh(surf)
      ensures surf.Width() == (if show(width) != "" then Some(show(width)) else None)
      ensures surf.Height() == (if show(height) != "" then Some(show(height)) else None)
      ensures TextAttr(surf.root, "version") == Some("1.1")
      ensures surf.root.tag == SvgTag && surf.root.transform == []
      ensures show(width) != "" || show(height) != "" ==>
                surf.Viewbox() == Some(ViewboxText(surf.Width(), surf.Height()))
      ensures surf.root.attrs.Keys ==
                {"version"}
                + (if show(width) != "" then {"width"} else {})
                + (if show(height) != "" then {"height"} else {})
                + (if show(width) != "" || show(height) != "" then {"viewbox"} else {})
      ensures surf.root.children == [Node(GroupTag, map[], [], Composed())]
    {
      surf := new SVGFigure(Some(show(width)), Some(show(height)));
      PlaceParts(surf);
    }

    /** _fits_inside for a rotated part is _fits_inside with the sides exchanged. */
    lemma FitsInsideRotated(x: real, y: real, w: real, h: real)
      ensures FitsInside(x, y, w, h, true) == FitsInside(x, y, h, w, false)
    {
    }

    /**
     * With no margin, a part exactly as large as the canvas fits at the
     * origin, and is refused one unit further right.
     */
    lemma FullCanvasAccepted(svg: Bytes, extract: Extractor, parse: Parser)
      requires marginWidth == 0.0 && width > 0.0 && height > 0.0
      requires extract(svg, dpi).Some? && parse(svg).Some?
      ensures Admit(svg, 0.0, 0.0, Some(width), Some(height), false, extract, parse).Success?
      ensures Admit(svg, 1.0, 0.0, Some(width), Some(height), false, extract, parse) == Failure(OutOfBounds)
    {
    }

    /**
     * add_svg_fromfile with a width of a and a height of b, both given and
     * different, stores a part drawn b wide and a high; the intended call
     * stores it a wide and b high.
     */
    lemma FromFileSwapsSize(content: Bytes, x: real, y: real, a: real, b: real, rotate: bool,
                            extract: Extractor, parse: Parser)
      requires a != 0.0 && b != 0.0 && a != b
      requires Admit(content, x, y, Some(b), Some(a), rotate, extract, parse).Success?
      ensures Admit(content, x, y, Some(b), Some(a), rotate, extract, parse).value.scaledWidth == b
      ensures Admit(content, x, y, Some(b), Some(a), rotate, extract, parse).value.scaledWidth != a
      ensures Admit(content, x, y, Some(a), Some(b), rotate, extract, parse).Success? ==>
                && Admit(content, x, y, Some(a), Some(b), rotate, extract, parse).value.scaledWidth == a
                && Admit(content, x, y, Some(a), Some(b), rotate, extract, parse).value.scaledHeight == b
    {
    }

    /**
     * What is drawn for a stored placement stays on the canvas when the margin
     * is positive, or zero for a part that is not turned: the viewport of the
     * part's nested svg is the footprint less its margin. (The border's
     * painted outline is the footprint itself: BorderInsideCanvas.)
     */
    lemma {:induction false} PlacedInsideCanvas(i: nat)
      requires Valid() && i < |parts|
      requires marginWidth > 0.0 || (marginWidth == 0.0 && !parts[i].part.rotate)
      ensures var pl := parts[i];
              var fp := Footprint(pl.x, pl.y, pl.part.scaledWidth, pl.part.scaledHeight, pl.part.rotate, marginWidth);
              && Contains(Canvas(), fp)
              && ViewportBox(Composed()[i], pl.part) == Some(Inset(fp, marginWidth))
              && Contains(Canvas(), Inset(fp, marginWidth))
    {
      var pl := parts[i];
      assert Placed(pl);
      PlacedViewport(pl, marginWidth, borderWidth, borderColor);
    }

    /**
     * A turned part stored while the margin is zero is drawn one drawn height
     * left of its placement: its viewport runs from x - sh to x, off the
     * footprint, and off the canvas altogether when placed at x = 0.
     */
    lemma {:induction false} TurnedWithoutMarginMisplaced(i: nat)
      requires Valid() && i < |parts| && marginWidth == 0.0
      requires parts[i].part.rotate && parts[i].part.scaledHeight > 0.0
      ensures var pl := parts[i];
              && ViewportBox(Composed()[i], pl.part)
                 == Some(Box(pl.x - pl.part.scaledHeight, pl.y, pl.x, pl.y + pl.part.scaledWidth))
              && !Contains(Footprint(pl.x, pl.y, pl.part.scaledWidth, pl.part.scaledHeight, true, 0.0),
                           ViewportBox(Composed()[i], pl.part).value)
              && (pl.x == 0.0 ==> !Contains(Canvas(), ViewportBox(Composed()[i], pl.part).value))
    ensures var pl := parts[i];
            var g := Composed()[i];
            var corner := Point(0.0, pl.part.scaledHeight);
            && Inside(corner, Viewport(pl.part))
            && MapPoint(g.transform + g.children[0].transform, corner) == Some(Point(pl.x - pl.part.scaledHeight, pl.y))
            && !Inside(Point(pl.x - pl.part.scaledHeight, pl.y),
                       Footprint(pl.x, pl.y, pl.part.scaledWidth, pl.part.scaledHeight, true, 0.0))
            && (pl.x == 0.0 ==> !Inside(Point(pl.x - pl.part.scaledHeight, pl.y), Canvas()))
    {
      var pl := parts[i];
      var g := Composed()[i];
      assert Placed(pl);
      WrittenTransformMisplacesRotated(pl.part);
      MapBoxAppend(g.transform, g.children[0].transform, Viewport(pl.part));
      TurnedCornerPlaced(pl, borderWidth, borderColor);
    }

    /** The border of a stored placement, when there is one, lies within the canvas. */
    lemma {:induction false} BorderInsideCanvas(i: nat)
      requires Valid() && i < |parts| && borderWidth > 0.0
      ensures var g := Composed()[i];
              && RectOutline(g.children[1]).Some?
              && MapBox(g.transform, RectOutline(g.children[1]).value).Some?
              && Contains(Canvas(), MapBox(g.transform, RectOutline(g.children[1]).value).value)
    {
      var pl := parts[i];
      assert Placed(pl);
      BorderOutline(pl, marginWidth, borderWidth, borderColor);
    }
  }

  /**
   * For a margin that is not negative, the part's nested svg lands on the
   * rectangle from (margin, margin) as large as its turned extent: inside the
   * border, whether or not the part is rotated.
   */
  lemma ContentLandsInMarginBox(p: Part, margin: real)
    requires margin >= 0.0
    ensures MapBox(PartTransform(p, margin), Viewport(p))
            == Some(Box(margin, margin, margin + Extent(p).0, margin + Extent(p).1))
  {
    var v := Viewport(p);
    if p.rotate {
      var turn := Op.Rotate(90.0, margin, margin);
      var shift := Translate(margin, margin - p.scaledHeight);
      assert PartTransform(p, margin) == [turn, shift];
      assert [turn, shift][..1] == [turn];
      var shifted := Box(margin, margin - p.scaledHeight, margin + p.scaledWidth, margin);
      assert ApplyBox(shift, v) == Some(shifted);
      assert MapBox([turn, shift], v) == MapBox([turn], shifted);
      assert [turn][..0] == [];
      assert MapBox([turn], shifted) == ApplyBox(turn, shifted);
      assert ApplyBox(turn, shifted) == Some(Box(margin, margin, margin + p.scaledHeight, margin + p.scaledWidth));
    } else if margin > 0.0 {
      assert PartTransform(p, margin) == [Translate(margin, margin)];
    } else {
      assert PartTransform(p, margin) == [];
    }
  }

  /**
   * Where a placed group draws its part's viewport, for a positive margin or
   * an unturned part with no margin: its footprint less the margin.
   */
  lemma PlacedViewport(pl: Placement, margin: real, borderWidth: real, color: string)
    requires margin > 0.0 || (margin == 0.0 && !pl.part.rotate)
    ensures ViewportBox(PlacedGroup(pl, margin, borderWidth, color), pl.part)
            == Some(Inset(Footprint(pl.x, pl.y, pl.part.scaledWidth, pl.part.scaledHeight, pl.part.rotate, margin), margin))
  {
    var p := pl.part;
    var g := PlacedGroup(pl, margin, borderWidth, color);
    var inner := PartTransform(p, margin);
    var drawn := Box(margin, margin, margin + Extent(p).0, margin + Extent(p).1);
    assert g.children[0] == PartGroup(p, margin, borderWidth, color).children[0];
    assert g.children[0].transform == inner;
    ContentLandsInMarginBox(p, margin);
    MapBoxAppend([Translate(pl.x, pl.y)], inner, Viewport(p));
    assert MapBox([Translate(pl.x, pl.y)], drawn) == ApplyBox(Translate(pl.x, pl.y), drawn);
  }

  /**
   * PlacedViewport point by point: every point of the part's viewport is
   * drawn inside the footprint less the margin, and every point of that
   * rectangle is drawn from some point of the viewport.
   */
  lemma PlacedViewportImage(pl: Placement, margin: real, borderWidth: real, color: string)
    requires margin > 0.0 || (margin == 0.0 && !pl.part.rotate)
    ensures var g := PlacedGroup(pl, margin, borderWidth, color);
            var inset := Inset(Footprint(pl.x, pl.y, pl.part.scaledWidth, pl.part.scaledHeight, pl.part.rotate, margin), margin);
            && (forall v | Inside(v, Viewport(pl.part)) ::
                  MapPoint(g.transform + g.children[0].transform, v).Some?
                  && Inside(MapPoint(g.transform + g.children[0].transform, v).value, inset))
            && (forall q | Inside(q, inset) ::
                  exists v :: Inside(v, Viewport(pl.part)) && MapPoint(g.transform + g.children[0].transform, v) == Some(q))
  {
    var g := PlacedGroup(pl, margin, borderWidth, color);
    var ops := g.transform + g.children[0].transform;
    PlacedViewport(pl, margin, borderWidth, color);
    assert g.children != [];
    assert MapBox(ops, Viewport(pl.part)) == ViewportBox(g, pl.part);
    forall v | Inside(v, Viewport(pl.part))
      ensures MapPoint(ops, v).Some? && Inside(MapPoint(ops, v).value, MapBox(ops, Viewport(pl.part)).value)
    {
      MapBoxSound(ops, Viewport(pl.part), v);
    }
    forall q | Inside(q, MapBox(ops, Viewport(pl.part)).value)
      ensures exists v :: Inside(v, Viewport(pl.part)) && MapPoint(ops, v) == Some(q)
    {
      MapBoxExact(ops, Viewport(pl.part), q);
    }
  }

  /**
   * With a zero margin, the turned part's bottom-left viewport corner ends up
   * one drawn height left of the placement.
   */
  lemma TurnedCornerPlaced(pl: Placement, borderWidth: real, color: string)
    requires pl.part.rotate
    ensures var g := PlacedGroup(pl, 0.0, borderWidth, color);
            MapPoint(g.transform + g.children[0].transform, Point(0.0, pl.part.scaledHeight))
            == Some(Point(pl.x - pl.part.scaledHeight, pl.y))
  {
    var g := PlacedGroup(pl, 0.0, borderWidth, color);
    var turn := Op.Rotate(90.0, 0.0, 0.0);
    var move := Translate(pl.x, pl.y);
    assert g.children[0] == PartGroup(pl.part, 0.0, borderWidth, color).children[0];
    assert g.children[0].transform == [turn];
    assert g.transform + g.children[0].transform == [move, turn];
    var corner := Point(0.0, pl.part.scaledHeight);
    var turned := Point(-pl.part.scaledHeight, 0.0);
    assert ApplyPoint(turn, corner) == Some(turned);
    assert [move, turn][..1] == [move];
    assert MapPoint([move, turn], corner) == MapPoint([move], turned);
    assert [move][..0] == [];
    assert MapPoint([move], turned) == Some(Point(pl.x - pl.part.scaledHeight, pl.y));
  }

  /**
   * The border of a placed group: present exactly when the border width is
   * positive, and its painted outline, moved with the group, is the
   * placement's footprint.
   */
  lemma BorderOutline(pl: Placement, margin: real, borderWidth: real, color: string)
    ensures var g := PlacedGroup(pl, margin, borderWidth, color);
            && |g.children| == (if borderWidth > 0.0 then 2 else 1)
            && (borderWidth > 0.0 ==>
                  && RectOutline(g.children[1]).Some?
                  && MapBox(g.transform, RectOutline(g.children[1]).value)
                     == Some(Footprint(pl.x, pl.y, pl.part.scaledWidth, pl.part.scaledHeight, pl.part.rotate, margin)))
  {
  }

  /**
   * As written, a rotated part with a zero margin is turned about the origin
   * and never shifted back: its viewport lands left of the group, outside the
   * border it is meant to sit in.
   */
  lemma WrittenTransformMisplacesRotated(p: Part)
    requires p.rotate && p.scaledHeight > 0.0
    ensures MapBox(WrittenPartTransform(p, 0.0), Viewport(p)) == Some(Box(-p.scaledHeight, 0.0, 0.0, p.scaledWidth))
    ensures !Contains(Box(0.0, 0.0, Extent(p).0, Extent(p).1), MapBox(WrittenPartTransform(p, 0.0), Viewport(p)).value)
    ensures MapBox(PartTransform(p, 0.0), Viewport(p)) == Some(Box(0.0, 0.0, Extent(p).0, Extent(p).1))
    ensures p.scaledWidth >= 0.0 ==> Inside(Point(0.0, p.scaledHeight), Viewport(p))
    ensures MapPoint(WrittenPartTransform(p, 0.0), Point(0.0, p.scaledHeight)) == Some(Point(-p.scaledHeight, 0.0))
    ensures !Inside(Point(-p.scaledHeight, 0.0), Box(0.0, 0.0, Extent(p).0, Extent(p).1))
  {
    ContentLandsInMarginBox(p, 0.0);
    var turn := Op.Rotate(90.0, 0.0, 0.0);
    assert WrittenPartTransform(p, 0.0) == [turn];
    assert [turn][..0] == [];
  }
}
