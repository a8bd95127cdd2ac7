# svgmapper placement core in Dafny

svgmapper composes several svg documents ("parts") onto one svg canvas. Each
part is placed at an (x, y) position. It may be scaled to a requested size and
turned a quarter turn, and it is framed by a margin and an optional border
rectangle. This project models the placement and layout engine:

- `svgmapper/mapper.py`: the `SVGPart` constructor and `generate_group`; the
  `SVGMapper` state (its `parts` list and settings), the bounds check
  `_fits_inside`, `add_svg_fromstring` (and `add_svg_fromfile` given the file
  content), `_place_parts` and `to_svg`.
- `svgmapper/transform.py`: the element wrappers (`FigureElement` with
  `moveto`, `rotate`, `scale`, `viewbox`, `id`; `RectElement`, `SVGElement`,
  `GroupElement`) and the canvas figure `SVGFigure` (constructor, `fromstring`,
  the `width`/`height` setters, `append`, `get_size`).

Files:

- `wrappers.dfy`: Option, Result, and Outcome, which is what a Python call
  that returns nothing or raises amounts to.
- `numerals.dfy`: the regular expression `[-+]?\d+[.]?\d*` that `get_size`
  searches with. As in a Python 3 `str` pattern, `\d` is a decimal digit of
  any script (Unicode general category Nd). It gives the leftmost match,
  greedy at that position, and proves it leftmost-longest.
- `transform.dfy`: an XML node as a value (tag, attributes, transform list,
  children), with the wrappers as classes that update their node in place.
- `geometry.dfy`: what a renderer does with a transform list, on points and
  on rectangles. This is the reference the placement properties are stated
  against.
- `mapper.dfy`: parts, placements, the group geometry and the `SVGMapper`
  class.

Numbers are exact `real`s. The transform attribute is a list of operations,
not formatted text. Python truthiness is written out: an optional number
counts as given when it is present and non-zero, and a string when it is
present and non-empty. Two collaborators are parameters:

- `svg_dimensions` (librsvg) is an `Extractor`, which returns None where it
  raises;
- `etree.fromstring` (lxml) is a `Parser`, which returns None where it raises.

`to_svg` also takes the number formatting `"{}".format` as a parameter.

## Model

| member | source | states |
|---|---|---|
| `Numerals.FirstNumeral` | svgmapper/transform.py:184-185 | `re.search` result, with `\d` any decimal digit of any script: None exactly when no stretch of the text is a numeral; otherwise a numeral, and the leftmost-longest one |
| `Numerals.SearchFrom` | svgmapper/transform.py:184-185 | scanning from a position: None means no numeral starts at or after it; otherwise the match is leftmost and no longer numeral starts at the same place |
| `Numerals.MatchLengthCorrect` | svgmapper/transform.py:184-185 | the greedy match at a position is a numeral, and no longer prefix there is one |
| `Numerals.UnsignedLengthCorrect` | svgmapper/transform.py:184-185 | the same for the unsigned part `\d+[.]?\d*`, including when it is empty |
| `Numerals.ArabicIndicDigits` | svgmapper/transform.py:184-185 | digits of another script count: 800 in Arabic-Indic digits, followed by "px", yields those three digits |
| `Numerals.LeadingDigits` | tests/test_transform.py:24-31 | text made of digits, followed by nothing or by a character that is neither a digit nor '.', yields exactly those digits |
| `Transform.Nodes` | svgmapper/transform.py:84-100 | a container's children are the listed items' nodes: one per item, in list order |
| `Transform.FigureElement.Wrap` | svgmapper/transform.py:14-15 | the wrapper's node is the given node |
| `Transform.FigureElement.Rect` | svgmapper/transform.py:70-78 | a rect node with the given position and size, and a style of stroke colour and stroke width |
| `Transform.FigureElement.SvgOf` | svgmapper/transform.py:80-91 | an svg node with exactly the given width and height, no transform, and the items' nodes as children in order |
| `Transform.FigureElement.Group` | svgmapper/transform.py:93-101 | a group node with no attributes, no transform, and the items' nodes as children in order |
| `Transform.FigureElement.MoveTo` | svgmapper/transform.py:17-19 | exactly one translate(x, y) is appended; the earlier operations, attributes and children stay |
| `Transform.FigureElement.Rotate` | svgmapper/transform.py:21-23 | exactly one rotate(angle, x, y) is appended; everything else stays |
| `Transform.FigureElement.Scale` | svgmapper/transform.py:25-31 | the one-factor form when no vertical factor is given, the two-factor form otherwise; one operation appended; everything else stays |
| `Transform.FigureElement.ViewBox` | svgmapper/transform.py:33-35 | viewBox is overwritten with (min-x, min-y, width, height) in that order; the transform and the children stay |
| `Transform.FigureElement.Id` | svgmapper/transform.py:37-38 | id is overwritten; the transform and the children stay |
| `Transform.SVGFigure.constructor` | svgmapper/transform.py:105-111 | an svg root with version 1.1; width and height are set only when non-empty, and then viewbox is "0 0 width height"; no other attribute |
| `Transform.SVGFigure.FromString` | svgmapper/transform.py:113-117 | fails exactly when parsing fails; otherwise the figure's root is the parsed node |
| `Transform.SVGFigure.Width` | svgmapper/transform.py:125-127 | the `width` property: None exactly when the root has no (textual) width attribute, otherwise that attribute's text |
| `Transform.SVGFigure.Height` | svgmapper/transform.py:134-136 | the `height` property, likewise for the height attribute |
| `Transform.SVGFigure.SetWidth` | svgmapper/transform.py:129-132 | width is the new value, height is unchanged, viewbox is "0 0 width height" (None for a missing height), nothing else changes |
| `Transform.SVGFigure.SetHeight` | svgmapper/transform.py:138-141 | the same for the height |
| `Transform.SVGFigure.Append` | svgmapper/transform.py:143-147 | an element or figure adds its own node as the last child; a list of items, or a bare node, is wrapped in a new group first; earlier children stay |
| `Transform.SVGFigure.GetSize` | svgmapper/transform.py:174-192 | a result exactly when both width and height are present and contain a numeral; then the leftmost-longest numeral of each, its digits from any script |
| `Transform.GetSizeOfDigits` | tests/test_transform.py:24-31 | sizes such as "800" and "600" (or "800px") give ("800", "600") |
| `Mapper.PartOf` | svgmapper/mapper.py:37-50 | the original size is the given one only when both sides are given and non-zero, else the extracted one; each drawn side defaults to the original side; the nested svg has the drawn size, viewBox (0, 0, original size) and the document as its one child; the error cases |
| `Mapper.NewPart` | svgmapper/mapper.py:15-51 | the constructor built through the wrappers gives exactly `PartOf` |
| `Mapper.WrittenPartTransform` | svgmapper/mapper.py:92-101 | the inner group's transform as the source builds it: a quarter turn about (margin, margin) exactly when rotated, then translate(margin, margin - drawn height when rotated, else margin) exactly when the margin is positive |
| `Mapper.PartTransform` | svgmapper/mapper.py:92-101 | the corrected variant: rotated, a quarter turn about (margin, margin) then translate(margin, margin - drawn height) always; not rotated, translate(margin, margin) when the margin is positive, nothing otherwise; equal to the written transform except for a rotated part with a margin that is not positive |
| `Mapper.ContentLandsInMarginBox` | svgmapper/mapper.py:92-101 | under the corrected transform and a margin that is not negative, the part's viewport lands on the rectangle at (margin, margin) the size of its turned extent |
| `Mapper.WrittenTransformMisplacesRotated` | svgmapper/mapper.py:99-101 | as written, a rotated part with margin 0 is drawn at x from -drawn height to 0, outside its border box: its viewport corner (0, drawn height) is drawn at (-drawn height, 0), outside the box; the corrected transform puts the viewport inside |
| `Mapper.PartGroup` | svgmapper/mapper.py:90-118 | the group holds the inner group (the written transform, the part's svg as its child), then a rect exactly when the border width is positive |
| `Mapper.GenerateGroup` | svgmapper/mapper.py:83-118 | the group built through the wrappers is exactly `PartGroup` |
| `Mapper.GroupOf` | svgmapper/mapper.py:90 | a new group whose one child is the part's nested svg |
| `Mapper.TurnedGroup` | svgmapper/mapper.py:90-101 | the inner group built through the wrappers: the part's svg with `WrittenPartTransform`, the translate added only when the margin is positive |
| `Mapper.Border` | svgmapper/mapper.py:105-116 | the border rect at (bw/2, bw/2), its sides the drawn sides plus two margins less bw, exchanged when rotated |
| `Mapper.BorderOutline` | svgmapper/mapper.py:105-116 | the border is there exactly when bw > 0, and its painted outline, moved with the group, is the placement's footprint |
| `Mapper.PlacedGroup` | svgmapper/mapper.py:225-238 | a placed group has the uid as id exactly when the uid is non-empty, translate(x, y) as its transform, and the part group's children |
| `Mapper.SVGMapper.constructor` | svgmapper/mapper.py:124-146 | no parts, the given canvas size and dpi, the default border width 0.1, colour "blue" and margin 10 |
| `Mapper.SVGMapper.Sized` | svgmapper/mapper.py:124 | the constructor with dpi left out: the dpi is the default 90, the rest as above |
| `Mapper.SVGMapper.FitsInside` | svgmapper/mapper.py:148-168 | for a position that is not negative: fits exactly when the footprint (the size, turned when rotated, grown by the margin on every side) lies within the canvas |
| `Mapper.SVGMapper.FitsInsideRotated` | svgmapper/mapper.py:162-163 | a rotated check is the unrotated check with width and height exchanged |
| `Mapper.SVGMapper.Admit` | svgmapper/mapper.py:170-205 | the checks in order, each with its error: negative position, unknown size, non-positive resolved size, out of bounds, unparsable document; the stored part has the extracted size as original and the resolved size (given and non-zero, else extracted) as drawn; an accepted placement passes every check |
| `Mapper.SVGMapper.AddSvgFromString` | svgmapper/mapper.py:170-205 | on failure the error is reported and `parts` is unchanged; on success exactly one placement is appended and the earlier ones stay; nothing but `parts` is written; every stored placement still passes the checks |
| `Mapper.SVGMapper.AddSvgFromFile` | svgmapper/mapper.py:207-215 | `add_svg_fromstring` with the given width in the height slot and the given height in the width slot |
| `Mapper.SVGMapper.FromFileSwapsSize` | svgmapper/mapper.py:215 | with different given sides, the file path stores a part whose drawn width is the given height |
| `Mapper.SVGMapper.AddSvgFromFileIntended` | svgmapper/mapper.py:207-215 | `add_svg_fromstring` with width and height in their own slots |
| `Mapper.SVGMapper.FullCanvasAccepted` | tests/test_mapper.py:133-140 | with margin 0, a part as large as the canvas fits at the origin and is refused one unit to the right |
| `Mapper.SVGMapper.Composed` | svgmapper/mapper.py:225-238 | one placed group per stored placement, in insertion order |
| `Mapper.SVGMapper.PlaceOne` | svgmapper/mapper.py:226-237 | one loop step of `_place_parts`: a new group that is exactly the placement's `PlacedGroup` |
| `Mapper.SVGMapper.PlaceParts` | svgmapper/mapper.py:217-240 | the canvas gains exactly one child, a group of the composed groups; its earlier children and attributes stay |
| `Mapper.SVGMapper.ToSvg` | svgmapper/mapper.py:242-259 | a new svg root with no transform, version 1.1, width and height the formatted canvas sides when non-empty, viewbox "0 0 width height" when either is, no other attribute, and one child: the group of every placed part |
| `Mapper.SVGMapper.PlacedInsideCanvas` | svgmapper/mapper.py:148-168 | for a stored placement, with a positive margin or a zero margin and an unturned part: the footprint is within the canvas, and the part's viewport is drawn exactly on the footprint less its margin, which is within the canvas too |
| `Mapper.PlacedViewport` | svgmapper/mapper.py:93-101 | under the same condition, the placed group draws the part's viewport on its footprint less the margin |
| `Mapper.PlacedViewportImage` | svgmapper/mapper.py:93-101 | the same, point by point: every viewport point is drawn inside the footprint less the margin, and every point of that rectangle is drawn from a viewport point |
| `Mapper.SVGMapper.TurnedWithoutMarginMisplaced` | svgmapper/mapper.py:93-101 | a turned part stored with a zero margin has its viewport drawn from x - drawn height to x; its corner (0, drawn height) is drawn at (x - drawn height, y), a point outside its footprint, and off the canvas when placed at x = 0 |
| `Mapper.TurnedCornerPlaced` | svgmapper/mapper.py:93-101 | with margin 0, the placed group sends a turned part's viewport corner (0, drawn height) to (x - drawn height, y) |
| `Mapper.SVGMapper.BorderInsideCanvas` | svgmapper/mapper.py:105-116 | for stored placements, the painted border outline lies within the canvas |

## Left out

- `svg_dimensions` (librsvg) and its unit conversion at the dpi: an `Extractor` parameter. It is a function, so extracting twice gives the same size.
- `etree.fromstring`: a `Parser` parameter. Serialisation is not modelled: `to_str`, `tostr` and `save`. Namespaces are not modelled either.
- Tree access and copying are not modelled: `copy`, `getroot`, `find_id` and `__getitem__`; the mapper does not call them.
- `SVGFigure.set_size` is not modelled. Unlike the `width` and `height` setters it writes both sides without refreshing `viewbox`, so after it the viewbox can disagree with the size; the mapper does not call it.
- Transform.SVGFigure.Width and Transform.SVGFigure.Height: they read textual attributes only. A number-valued attribute, which only the wrappers' own nodes carry (attribute numbers are values here, see below), reads as None, where lxml would return its text.
- File reading in `add_svg_fromfile`, `SVGPart.fromfile` and `SVGFigure.fromfile`, and `to_svg(path)`: the model takes the content and returns the figure.
- `SVGPart.fromstring` and `SVGPart.get_size`: the first only forwards to the constructor, and the second returns the `width` and `height` fields of `Part`.
- Number formatting: attribute numbers are values, not text (`%s`, `%f`, `str`). `to_svg`'s `"{}".format` of the canvas size is the `show` parameter.
- `to_num`: `Transform.SVGFigure.GetSize` returns the matched text, not the number it converts to.
- `TextElement` and `LineElement`, which the mapper does not use.
- The `isinstance` assertions on `svg` and `dpi`: the types enforce them.
- A `uid` that is not a string: `str(uid)` is not modelled, and a uid is an optional string.
- Rotations other than 0 and 90 degrees, and scaling, get no geometric meaning: `Geometry.ApplyPoint` gives None for them. The mapper only turns by 90 degrees, and it scales through the nested svg's viewBox, never through a transform.
- lxml moves a node when it is appended to a new parent, so a second `to_svg` takes each part's svg out of the first figure. Nodes here are values, so that move and the aliasing between parts and figures are not captured.
- The settings are public fields that callers may assign at any time. `Mapper.SVGMapper.Valid` holds for the settings in force when it is checked, so changing the margin or the canvas size after adding parts can break it.
- Mapper.SVGMapper.FitsInside: the containment reading is stated for positions that are not negative, the only ones `add_svg_fromstring` admits.
- Mapper.SVGMapper.PlacedInsideCanvas: stated for a positive margin, or a zero margin and an unturned part. A turned part at margin 0 is drawn off its footprint (`Mapper.SVGMapper.TurnedWithoutMarginMisplaced`, see Findings). A negative margin shrinks the footprint below the part, and the source promises nothing for it.
- Mapper.ViewportBox: it is the nested svg's viewport, not the drawn picture. The nested svg keeps the default `preserveAspectRatio`, so a part scaled out of proportion is letterboxed inside that viewport; the renderer's fitting is not modelled.
- Transform.FigureElement.Group: its requires rules out an `SVGFigure` among the items. `GroupElement` hands such an item to lxml as it is, and lxml raises `TypeError`; that error is not modelled.
- Transform.SVGFigure.Append: its requires rule out appending a figure to itself, on which lxml raises, and a list holding an `SVGFigure`, on which `GroupElement` raises `TypeError` as above. Neither error is modelled.

## Findings

| source | as written | input that shows it | evidently intended | confidence | as-written member | corrected member |
|---|---|---|---|---|---|---|
| svgmapper/mapper.py:100-101 | the translate that both adds the margin and undoes the quarter turn is appended only when `margin_width > 0` | `rotate=True`, `margin_width=0`, drawn size 20×10: the viewport covers x from -10 to 0, left of its border box and of the placement | append the translate whenever the part is rotated or the margin is positive; `Mapper.ContentLandsInMarginBox` proves the viewport then lands inside the border; `Mapper.SVGMapper.TurnedWithoutMarginMisplaced` shows the placed part, as written, off its footprint | medium, not executed | `Mapper.WrittenTransformMisplacesRotated` | `Mapper.PartTransform` |
| svgmapper/mapper.py:215 | `add_svg_fromfile` passes `height, width` into the `width, height` slots of `add_svg_fromstring` | `width=100, height=50`: the stored part is drawn 50 wide and 100 high | pass `width, height` in order | high, not executed | `Mapper.SVGMapper.FromFileSwapsSize` | `Mapper.SVGMapper.AddSvgFromFileIntended` |
