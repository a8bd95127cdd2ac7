/**
 * svgmapper/transform.py: wrappers around one XML node each. FigureElement
 * and its subclasses (rect, svg, group) edit their node's transform, viewBox
 * and id in place; SVGFigure is the output canvas with its width/height
 * setters, append and get_size.
 *
 * An XML node is a value here: its tag, its attributes, its transform
 * attribute as a list of operations, and its children. The transform
 * attribute is kept apart from the other attributes; an empty list stands
 * for an absent attribute.
 */
module Transform {
  import opened Wrappers
  import opened Numerals

  type Bytes = seq<bv8>

  /** One entry of an SVG `transform` attribute. */
  datatype Op =
    | Translate(tx: real, ty: real)
    | Rotate(angle: real, cx: real, cy: real)
    | Scale(s: real)
    | ScaleXY(sx: real, sy: real)

  /** An attribute value. */
  datatype Value =
    | Text(text: string)
    | Num(num: real)
    /** A viewBox: min-x, min-y, width, height, in that order. */
    | Coords(minX: real, minY: real, width: real, height: real)
    /** The style of a border rectangle: its stroke colour and stroke width. */
    | Stroke(color: string, strokeWidth: real)

  datatype Tag = SvgTag | GroupTag | RectTag | OtherTag(name: string)

  datatype Node = Node(tag: Tag, attrs: map<string, Value>, transform: seq<Op>, children: seq<Node>)

  /** What lxml's `get` returns for a textual attribute, None when it is absent. */
  function TextAttr(n: Node, key: string): Option<string> {
    if key in n.attrs && n.attrs[key].Text? then Some(n.attrs[key].text) else None
  }

  /** Python's truth value of an optional string: present and non-empty. */
  predicate Truthy(s: Option<string>) { s.Some? && s.value != "" }

  /** The node RectElement builds: position, size and a stroke-only style. */
  function RectNode(x: real, y: real, width: real, height: real, strokeWidth: real, color: string): Node {
    Node(RectTag,
         map["x" := Num(x), "y" := Num(y), "width" := Num(width), "height" := Num(height),
             "style" := Stroke(color, strokeWidth)],
         [], [])
  }

  /**
   * What the element lists of SVGElement and GroupElement may hold: a wrapped
   * element, a whole figure, or a bare XML node.
   */
  datatype Content = Element(elem: FigureElement) | Figure(fig: SVGFigure) | Raw(node: Node)

  /** The XML node a content item contributes as a child. */
  function NodeOf(c: Content): Node
    reads if c.Element? then {c.elem} else {}
    reads if c.Figure? then {c.fig} else {}
  {
    match c
    case Element(e) => e.root
    case Figure(f) => f.root
    case Raw(n) => n
  }

  /** The objects whose nodes a list of contents reads. */
  function Elements(cs: seq<Content>): set<FigureElement> {
    set c | c in cs && c.Element? :: c.elem
  }

  function Figures(cs: seq<Content>): set<SVGFigure> {
    set c | c in cs && c.Figure? :: c.fig
  }

  /** The children a container gets from a list of contents: one node per item, in list order. */
  function Nodes(cs: seq<Content>): (r: seq<Node>)
    reads Elements(cs), Figures(cs)
    ensures |r| == |cs|
    ensures forall i | 0 <= i < |cs| :: r[i] == NodeOf(cs[i])
  {
    if cs == [] then []
    else
      var init := cs[..|cs| - 1];
      assert forall c | c in init :: c in cs;
      Nodes(init) + [NodeOf(cs[|cs| - 1])]
  }

  /** A list of contents that GroupElement accepts: lxml refuses to append a figure object. */
  predicate NoFigures(cs: seq<Content>) {
    forall i | 0 <= i < |cs| :: !cs[i].Figure?
  }

  class FigureElement {
    var root: Node

    /** FigureElement(xml_element): wraps an existing node. */
    constructor Wrap(node: Node)
      ensures root == node
    {
      root := node;
    }

    /** RectElement: a rectangle outline with the given stroke width and colour. */
    constructor Rect(x: real, y: real, width: real, height: real, strokeWidth: real, color: string)
      ensures root == RectNode(x, y, width, height, strokeWidth, color)
    {
      root := RectNode(x, y, width, height, strokeWidth, color);
    }

    /** SVGElement: a nested svg node of the given size holding the listed contents in order. */
    constructor SvgOf(elements: seq<Content>, width: real, height: real)
      ensures root.tag == SvgTag && root.transform == []
      ensures root.attrs == map["width" := Num(width), "height" := Num(height)]
      ensures root.children == Nodes(elements)
    {
      var kids := [];
      for i := 0 to |elements|
        invariant kids == Nodes(elements[..i])
      {
        assert elements[..i + 1][..i] == elements[..i];
        kids := kids + [NodeOf(elements[i])];
      }
      assert elements[..|elements|] == elements;
      root := Node(SvgTag, map["width" := Num(width), "height" := Num(height)], [], kids);
    }

    /** GroupElement: a group node holding the listed contents in order. */
    constructor Group(elements: seq<Content>)
      requires NoFigures(elements)
      ensures root == Node(GroupTag, map[], [], Nodes(elements))
    {
      var kids := [];
      for i := 0 to |elements|
        invariant kids == Nodes(elements[..i])
      {
        assert elements[..i + 1][..i] == elements[..i];
        kids := kids + [NodeOf(elements[i])];
      }
      assert elements[..|elements|] == elements;
      root := Node(GroupTag, map[], [], kids);
    }

    /** moveto: appends translate(x, y) to the transform. */
    method MoveTo(x: real, y: real)
      modifies this
      ensures root == old(root).(transform := old(root).transform + [Translate(x, y)])
    {
      root := root.(transform := root.transform + [Translate(x, y)]);
    }

    /** rotate: appends a rotation by `angle` degrees about (x, y) to the transform. */
    method Rotate(angle: real, x: real, y: real)
      modifies this
      ensures root == old(root).(transform := old(root).transform + [Op.Rotate(angle, x, y)])
    {
      root := root.(transform := root.transform + [Op.Rotate(angle, x, y)]);
    }

    /** scale: appends scale(sx) when no vertical factor is given, scale(sx sy) otherwise. */
    method Scale(sx: real, sy: Option<real>)
      modifies this
      ensures sy.None? ==> root == old(root).(transform := old(root).transform + [Op.Scale(sx)])
      ensures sy.Some? ==> root == old(root).(transform := old(root).transform + [ScaleXY(sx, sy.value)])
    {
      if sy.None? {
        root := root.(transform := root.transform + [Op.Scale(sx)]);
      } else {
        root := root.(transform := root.transform + [ScaleXY(sx, sy.value)]);
      }
    }

    /** viewbox: overwrites the viewBox attribute; the transform and the children stay. */
    method ViewBox(minX: real, minY: real, width: real, height: real)
      modifies this
      ensures root == old(root).(attrs := old(root).attrs["viewBox" := Coords(minX, minY, width, height)])
    {
      root := root.(attrs := root.attrs["viewBox" := Coords(minX, minY, width, height)]);
    }

    /** id: overwrites the id attribute; the transform and the children stay. */
    method Id(idStr: string)
      modifies this
      ensures root == old(root).(attrs := old(root).attrs["id" := Text(idStr)])
    {
      root := root.(attrs := root.attrs["id" := Text(idStr)]);
    }
  }

  /** What SVGFigure.append is given: something with a node, or a list of contents. */
  datatype Appendable = One(item: Content) | Many(items: seq<Content>)

  /** The text of the lowercase `viewbox` attribute: "0 0 <width> <height>", Python's None for a missing side. */
  function ViewboxText(width: Option<string>, height: Option<string>): string {
    "0 0 " + Show(width) + " " + Show(height)
  }

  /** How "%s" formats an attribute read with lxml's `get`. */
  function Show(s: Option<string>): string {
    if s.Some? then s.value else "None"
  }

  class SVGFigure {
    var root: Node

    /** The `width` property: lxml's `get("width")` on the root, None when the attribute is absent. */
    function Width(): (r: Option<string>)
      reads this
      ensures r.None? <==> !("width" in root.attrs && root.attrs["width"].Text?)
      ensures r.Some? ==> root.attrs["width"] == Text(r.value)
    {
      TextAttr(root, "width")
    }

    /** The `height` property: lxml's `get("height")` on the root, None when the attribute is absent. */
    function Height(): (r: Option<string>)
      reads this
      ensures r.None? <==> !("height" in root.attrs && root.attrs["height"].Text?)
      ensures r.Some? ==> root.attrs["height"] == Text(r.value)
    {
      TextAttr(root, "height")
    }

    /** The lowercase `viewbox` attribute that the size setters maintain. */
    function Viewbox(): Option<string>
      reads this
    {
      TextAttr(root, "viewbox")
    }

    /**
     * A new svg root with version 1.1; a width or height that is given and
     * non-empty goes through its setter, width first.
     */
    constructor (width: Option<string>, height: Option<string>)
      ensures root.tag == SvgTag && root.transform == [] && root.children == []
      ensures TextAttr(root, "version") == Some("1.1")
      ensures Width() == (if Truthy(width) then width else None)
      ensures Height() == (if Truthy(height) then height else None)
      ensures Truthy(width) || Truthy(height) ==> Viewbox() == Some(ViewboxText(Width(), Height()))
      ensures root.attrs.Keys ==
                {"version"}
                + (if Truthy(width) then {"width"} else {})
                + (if Truthy(height) then {"height"} else {})
                + (if Truthy(width) || Truthy(height) then {"viewbox"} else {})
    {
      root := Node(SvgTag, map["version" := Text("1.1")], [], []);
      new;
      if Truthy(width) {
        SetWidth(width.value);
      }
      if Truthy(height) {
        SetHeight(height.value);
      }
    }

    /** SVGFigure.fromstring: a figure whose root is the parsed document; None when parsing fails. */
    static method FromString(svg: Bytes, parse: Bytes -> Option<Node>) returns (r: Option<SVGFigure>)
      ensures r.None? <==> parse(svg).None?
      ensures r.Some? ==> fresh(r.value) && r.value.root == parse(svg).value
    {
      var figure := new SVGFigure(None, None);
      match parse(svg) {
        case None =>
          r := None;
        case Some(tree) =>
          figure.root := tree;
          r := Some(figure);
      }
    }

    /** The width setter: sets width, then rewrites viewbox from the current width and height. */
    method SetWidth(value: string)
      modifies this
      ensures Width() == Some(value) && Height() == old(Height())
      ensures Viewbox() == Some(ViewboxText(Some(value), Height()))
      ensures root == old(root).(attrs := old(root).attrs["width" := Text(value)]
                                                       ["viewbox" := Text(ViewboxText(Some(value), old(Height())))])
    {
      root := root.(attrs := root.attrs["width" := Text(value)]);
      root := root.(attrs := root.attrs["viewbox" := Text(ViewboxText(Width(), Height()))]);
    }

    /** The height setter: sets height, then rewrites viewbox from the current width and height. */
    method SetHeight(value: string)
      modifies this
      ensures Height() == Some(value) && Width() == old(Width())
      ensures Viewbox() == Some(ViewboxText(Width(), Some(value)))
      ensures root == old(root).(attrs := old(root).attrs["height" := Text(value)]
                                                       ["viewbox" := Text(ViewboxText(old(Width()), Some(value)))])
    {
      root := root.(attrs := root.attrs["height" := Text(value)]);
      root := root.(attrs := root.attrs["viewbox" := Text(ViewboxText(Width(), Height()))]);
    }

    /**
     * append: an element or figure contributes its node; anything without a
     * node (a list, or a bare XML node, whose children Python iterates) is
     * first wrapped in a new group.
     */
    method Append(a: Appendable)
      requires a.One? && a.item.Figure? ==> a.item.fig != this
      requires a.Many? ==> NoFigures(a.items)
      modifies this
      ensures a.One? && !a.item.Raw? ==> root == old(root).(children := old(root.children) + [old(NodeOf(a.item))])
      ensures a.One? && a.item.Raw? ==> root == old(root).(children := old(root.children) + [Node(GroupTag, map[], [], a.item.node.children)])
      ensures a.Many? ==> root == old(root).(children := old(root.children) + [Node(GroupTag, map[], [], old(Nodes(a.items)))])
    {
      if a.Many? {
        ghost var kids := Nodes(a.items);
        var g := new FigureElement.Group(a.items);
        assert g.root.children == kids;
        root := root.(children := root.children + [g.root]);
      } else if a.item.Raw? {
        var kids := a.item.node.children;
        var items := seq(|kids|, i requires 0 <= i < |kids| => Raw(kids[i]));
        var g := new FigureElement.Group(items);
        assert Nodes(items) == kids;
        root := root.(children := root.children + [g.root]);
      } else {
        root := root.(children := root.children + [NodeOf(a.item)]);
      }
    }

    /**
     * get_size: the first numeral in the width and in the height attribute,
     * as text; None (Python raises ValueError) when either is missing or
     * holds no numeral.
     */
    function GetSize(): (r: Option<(string, string)>)
      reads this
      ensures r.Some? <==> && Width().Some? && ContainsNumeral(Width().value)
                           && Height().Some? && ContainsNumeral(Height().value)
      ensures r.Some? ==> IsNumeral(r.value.0) && IsNumeral(r.value.1)
      ensures r.Some? ==> IsFirstNumeral(Width().value, r.value.0) && IsFirstNumeral(Height().value, r.value.1)
    {
      if Width().None? || Height().None? then None
      else
        var w := FirstNumeral(Width().value);
        var h := FirstNumeral(Height().value);
        if w.Some? && h.Some? then Some((w.value, h.value)) else None
    }
  }

  /**
   * A figure whose width and height start with plain digits (such as "800"
   * and "600", or "800px") has those digits as its size.
   */
  lemma GetSizeOfDigits(f: SVGFigure, wDigits: string, wRest: string, hDigits: string, hRest: string)
    requires |wDigits| > 0 && AllDigits(wDigits) && (wRest == [] || (!IsDigit(wRest[0]) && wRest[0] != '.'))
    requires |hDigits| > 0 && AllDigits(hDigits) && (hRest == [] || (!IsDigit(hRest[0]) && hRest[0] != '.'))
    requires f.Width() == Some(wDigits + wRest) && f.Height() == Some(hDigits + hRest)
    ensures f.GetSize() == Some((wDigits, hDigits))
  {
    LeadingDigits(wDigits, wRest);
    LeadingDigits(hDigits, hRest);
  }
}
