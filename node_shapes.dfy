/** What `drawState` draws inside a state's group: the choice among the four
    variants (start, end, simple label, label with descriptions) and the
    geometry each variant computes from its measured text boxes. */
module NodeShapes {
  import opened Wrappers
  import opened Geometry

  /** A state definition as the parser hands it over. `stype` is kept as the
      string the renderer compares against, so types other than "start",
      "end" and "default" are representable. */
  datatype StateDef = StateDef(id: string, stype: string, descriptions: seq<string>)

  /** The boxes `getBBox` reports while one state is drawn: the simple
      label's text, the described state's title height and description
      block, and finally the whole group. */
  datatype Measures = Measures(labelBox: Box, titleHeight: real, descrBox: Box, groupBox: Box)

  datatype Fill = Black | White

  datatype Circle = Circle(cx: real, cy: real, r: real, fill: Fill)

  /** A `text` element; `fontSize` is None where the element sets none. */
  datatype TextRun = TextRun(x: real, y: real, fontSize: Option<real>, text: string)

  /** A `tspan` of the description text; `dy` is None where it is not set. */
  datatype Tspan = Tspan(x: real, dy: Option<real>, text: string)

  datatype Line = Line(x1: real, y1: real, x2: real, y2: real)

  /** The content of a state's group, one constructor per drawing routine. */
  datatype NodeContent =
    | StartMarker(dot: Circle)
    | EndMarker(ring: Circle, dot: Circle)
    | SimpleLabel(caption: TextRun, frame: Box)
    | DescribedLabel(title: TextRun, body: TextRun, spans: seq<Tspan>, divider: Line, frame: Box)

  const TitleFontSize: real := 24.0

  datatype Branch = StartBranch | EndBranch | SimpleBranch | DescribedBranch

  /** The condition of each of the four `if`s in `drawState`. */
  predicate Guard(b: Branch, s: StateDef)
    ensures Guard(b, s) ==> s.stype == "start" || s.stype == "end" || s.stype == "default"
  {
    match b
    case StartBranch => s.stype == "start"
    case EndBranch => s.stype == "end"
    case SimpleBranch => s.stype == "default" && |s.descriptions| == 0
    case DescribedBranch => s.stype == "default" && |s.descriptions| > 0
  }

  /** The variant as one exhaustive choice. Its contract says this choice
      agrees with the four independent guards: the selected branch's guard
      holds and no other guard does, and a branch is selected exactly for
      the three known types. */
  function Dispatch(s: StateDef): (r: Option<Branch>)
    ensures r.Some? ==> Guard(r.value, s)
    ensures forall b :: Guard(b, s) ==> r == Some(b)
    ensures r.None? <==> s.stype != "start" && s.stype != "end" && s.stype != "default"
  {
    if s.stype == "start" then Some(StartBranch)
    else if s.stype == "end" then Some(EndBranch)
    else if s.stype == "default" then
      (if |s.descriptions| == 0 then Some(SimpleBranch) else Some(DescribedBranch))
    else None
  }

  /** No two of the four guards hold of the same state. */
  lemma GuardsExclusive(s: StateDef, b1: Branch, b2: Branch)
    requires Guard(b1, s) && Guard(b2, s)
    ensures b1 == b2
  {
  }

  function CircleBounds(c: Circle): Box {
    Box(c.cx - c.r, c.cy - c.r, 2.0 * c.r, 2.0 * c.r)
  }

  /** The start marker: a black circle of radius 5 whose bounds start at the padding offset. */
  function StartDot(): (c: Circle)
    ensures c.fill == Black
    ensures CircleBounds(c) == Box(Padding, Padding, 10.0, 10.0)
  {
    Circle(Padding + 5.0, Padding + 5.0, 5.0, Black)
  }

  /** The end marker's outer white ring, radius 7. */
  function EndRing(): (c: Circle)
    ensures c.fill == White
    ensures CircleBounds(c) == Box(Padding, Padding, 14.0, 14.0)
  {
    Circle(Padding + 7.0, Padding + 7.0, 7.0, White)
  }

  /** The end marker's inner black dot, radius 5, concentric with the ring
      and inset from it by 2 on every side. */
  function EndDot(): (c: Circle)
    ensures c.fill == Black && c.r == StartDot().r
    ensures c.cx == EndRing().cx && c.cy == EndRing().cy && c.r < EndRing().r
    ensures Surrounds(CircleBounds(EndRing()), CircleBounds(c), 2.0)
  {
    Circle(Padding + 7.0, Padding + 7.0, 5.0, Black)
  }

  /** The label text of a state without descriptions. */
  function SimpleLabelText(id: string): (t: TextRun)
    ensures t.text == id && t.fontSize == Some(TitleFontSize)
    ensures t.x == 2.0 * Padding && t.y == TextHeight + 2.0 * Padding
  {
    TextRun(2.0 * Padding, TextHeight + 2.0 * Padding, Some(TitleFontSize), id)
  }

  /** The rounded rectangle behind a simple label, from the measured text box. */
  function SimpleFrame(labelBox: Box): (r: Box)
    ensures r.x == r.y == Padding
    ensures r.width == Grow(labelBox, Padding).width && r.height == Grow(labelBox, Padding).height
  {
    Box(Padding, Padding, labelBox.width + 2.0 * Padding, labelBox.height + 2.0 * Padding)
  }

  /** The frame holds the measured text exactly when the text box starts
      between one and three paddings from the group's origin on both axes. */
  lemma SimpleFrameContains(labelBox: Box)
    ensures Contains(SimpleFrame(labelBox), labelBox)
        <==> Padding <= labelBox.x <= 3.0 * Padding && Padding <= labelBox.y <= 3.0 * Padding
  {
  }

  /** The frame is the text box grown by the padding, equally on all sides,
      exactly when the text box starts at (2 * padding, 2 * padding), the
      position the label text is given. */
  lemma SimpleFrameSurrounds(labelBox: Box)
    ensures Surrounds(SimpleFrame(labelBox), labelBox, Padding)
        <==> labelBox.x == 2.0 * Padding && labelBox.y == 2.0 * Padding
  {
  }

  /** The tspan for one description; only the first one has no `dy`. */
  function TspanFor(text: string, isFirst: bool): (t: Tspan)
    ensures t.text == text && t.x == 2.0 * Padding
    ensures t.dy.None? <==> isFirst
    ensures t.dy.Some? ==> t.dy.value == TextHeight
  {
    Tspan(2.0 * Padding, if isFirst then None else Some(TextHeight), text)
  }

  /** The tspans the description `forEach` appends, with its `isFirst` flag
      as the second argument. */
  function AddTspans(ds: seq<string>, isFirst: bool): (r: seq<Tspan>)
    ensures |r| == |ds|
  {
    if ds == [] then [] else [TspanFor(ds[0], isFirst)] + AddTspans(ds[1..], false)
  }

  function Tspans(ds: seq<string>): seq<Tspan> {
    AddTspans(ds, true)
  }

  lemma {:induction false} AddTspansAt(ds: seq<string>, isFirst: bool, i: nat)
    requires i < |ds|
    ensures AddTspans(ds, isFirst)[i] == TspanFor(ds[i], isFirst && i == 0)
  {
    if i > 0 {
      AddTspansAt(ds[1..], false, i - 1);
    }
  }

  /** One tspan per description, in order, each at x = 2 * padding; the
      first has no `dy` and every later one has `dy = textHeight`. */
  lemma TspansShape(ds: seq<string>)
    ensures |Tspans(ds)| == |ds|
    ensures forall i :: 0 <= i < |ds| ==>
      && Tspans(ds)[i].text == ds[i]
      && Tspans(ds)[i].x == 2.0 * Padding
      && Tspans(ds)[i].dy == (if i == 0 then None else Some(TextHeight))
  {
    forall i | 0 <= i < |ds|
      ensures Tspans(ds)[i] == TspanFor(ds[i], i == 0)
    {
      AddTspansAt(ds, true, i);
    }
  }

  /** The description `forEach` as the loop it is: one tspan per
      description, carrying the `isFirst` flag from one step to the next. */
  method BuildTspans(ds: seq<string>) returns (spans: seq<Tspan>)
    ensures spans == Tspans(ds)
  {
    spans := [];
    var isFirst := true;
    var i := 0;
    while i < |ds|
      invariant 0 <= i <= |ds|
      invariant isFirst <==> i == 0
      invariant |spans| == i
      invariant forall j :: 0 <= j < i ==> spans[j] == TspanFor(ds[j], j == 0)
    {
      spans := spans + [TspanFor(ds[i], isFirst)];
      isFirst := false;
      i := i + 1;
    }
    forall j | 0 <= j < |ds|
      ensures spans[j] == Tspans(ds)[j]
    {
      AddTspansAt(ds, true, j);
    }
  }

  /** The described state: title, description block, divider and frame,
      from the measured title height and description box. */
  function DescribedState(s: StateDef, titleHeight: real, descrBox: Box, spans: seq<Tspan>): (c: NodeContent)
    ensures c.DescribedLabel? && c.spans == spans
    ensures c.title.text == s.id && c.title.fontSize == Some(TitleFontSize) && c.body.fontSize.None?
    ensures c.title.x == 2.0 * Padding && c.title.y == TextHeight + 1.5 * Padding
    ensures c.body.x == Padding && c.body.y == titleHeight + 0.2 * Padding + DividerMargin + TextHeight
    ensures c.divider.y1 == c.divider.y2 == Padding + titleHeight + DividerMargin / 2.0
    ensures c.frame.x == c.frame.y == Padding
    ensures c.frame.width == Grow(descrBox, Padding).width
    ensures c.frame.height == titleHeight + Grow(descrBox, Padding).height
  {
    var dividerY := Padding + titleHeight + DividerMargin / 2.0;
    DescribedLabel(
      TextRun(2.0 * Padding, TextHeight + 1.5 * Padding, Some(TitleFontSize), s.id),
      TextRun(Padding, titleHeight + Padding * 0.2 + DividerMargin + TextHeight, None, ""),
      spans,
      Line(Padding, dividerY, descrBox.width + 3.0 * Padding, dividerY),
      Box(Padding, Padding, descrBox.width + 2.0 * Padding, descrBox.height + titleHeight + 2.0 * Padding))
  }

  /** The divider is horizontal and runs from the frame's left edge to its
      right edge; for non-negative measured heights it lies strictly inside
      the frame, above the first description line. */
  lemma DividerSpansFrame(s: StateDef, titleHeight: real, descrBox: Box, spans: seq<Tspan>)
    ensures var c := DescribedState(s, titleHeight, descrBox, spans);
      && c.divider.y1 == c.divider.y2
      && c.divider.x1 == c.frame.x && c.divider.x2 == Right(c.frame)
      && c.divider.y1 < c.body.y
    ensures var c := DescribedState(s, titleHeight, descrBox, spans);
      titleHeight >= 0.0 && descrBox.height >= 0.0 ==> c.frame.y < c.divider.y1 < Bottom(c.frame)
  {
  }

  /** The described frame's width depends on the description block only, so
      a title wider than the descriptions is not accounted for; its height
      grows by exactly what the title and the description block grow by. */
  lemma DescribedFrameSize(s1: StateDef, s2: StateDef, th1: real, th2: real, d1: Box, d2: Box, sp1: seq<Tspan>, sp2: seq<Tspan>)
    requires d1.width == d2.width
    ensures DescribedState(s1, th1, d1, sp1).frame.width == DescribedState(s2, th2, d2, sp2).frame.width
    ensures DescribedState(s2, th2, d2, sp2).frame.height - DescribedState(s1, th1, d1, sp1).frame.height
         == (d2.height - d1.height) + (th2 - th1)
    ensures th1 == th2 && d1.height < d2.height ==>
      DescribedState(s1, th1, d1, sp1).frame.height < DescribedState(s2, th2, d2, sp2).frame.height
  {
  }

  /** `drawDescrState`: builds the tspans with the description loop and lays
      out title, divider and frame from the measured boxes. */
  method DrawDescrState(s: StateDef, m: Measures) returns (c: NodeContent)
    ensures c == Render(DescribedBranch, s, m)
  {
    var spans := BuildTspans(s.descriptions);
    c := DescribedState(s, m.titleHeight, m.descrBox, spans);
  }

  /** The four `if`s of `drawState`, run one after the other. */
  method DrawContents(s: StateDef, m: Measures) returns (contents: seq<NodeContent>)
    ensures contents == DrawnContents(s, m)
  {
    contents := [];
    if s.stype == "start" {
      contents := contents + [StartMarker(StartDot())];
    }
    if s.stype == "end" {
      contents := contents + [EndMarker(EndRing(), EndDot())];
    }
    if s.stype == "default" && |s.descriptions| == 0 {
      contents := contents + [SimpleLabel(SimpleLabelText(s.id), SimpleFrame(m.labelBox))];
    }
    if s.stype == "default" && |s.descriptions| > 0 {
      var c := DrawDescrState(s, m);
      contents := contents + [c];
    }
  }

  /** What one drawing routine draws into the group. */
  function Render(b: Branch, s: StateDef, m: Measures): (c: NodeContent)
    ensures c.StartMarker? <==> b == StartBranch
    ensures c.EndMarker? <==> b == EndBranch
    ensures c.SimpleLabel? <==> b == SimpleBranch
    ensures c.DescribedLabel? <==> b == DescribedBranch
    ensures c.StartMarker? ==> c.dot == StartDot()
    ensures c.EndMarker? ==> c.ring == EndRing() && c.dot == EndDot()
    ensures c.SimpleLabel? ==> c.caption == SimpleLabelText(s.id) && c.frame == SimpleFrame(m.labelBox)
    ensures c.DescribedLabel? ==> c == DescribedState(s, m.titleHeight, m.descrBox, Tspans(s.descriptions))
  {
    match b
    case StartBranch => StartMarker(StartDot())
    case EndBranch => EndMarker(EndRing(), EndDot())
    case SimpleBranch => SimpleLabel(SimpleLabelText(s.id), SimpleFrame(m.labelBox))
    case DescribedBranch => DescribedState(s, m.titleHeight, m.descrBox, Tspans(s.descriptions))
  }

  /** The content produced by the four `if`s of `drawState` run one after the other. */
  function DrawnContents(s: StateDef, m: Measures): (r: seq<NodeContent>)
    ensures forall b :: Guard(b, s) ==> r == [Render(b, s, m)]
    ensures (forall b :: !Guard(b, s)) ==> r == []
  {
    (if Guard(StartBranch, s) then [Render(StartBranch, s, m)] else [])
    + (if Guard(EndBranch, s) then [Render(EndBranch, s, m)] else [])
    + (if Guard(SimpleBranch, s) then [Render(SimpleBranch, s, m)] else [])
    + (if Guard(DescribedBranch, s) then [Render(DescribedBranch, s, m)] else [])
  }

  /** Running the four `if`s one after the other draws exactly the variant
      `Dispatch` selects, and nothing for a type it does not know. */
  lemma SequentialDispatch(s: StateDef, m: Measures)
    ensures DrawnContents(s, m) == match Dispatch(s) case None => [] case Some(b) => [Render(b, s, m)]
    ensures |DrawnContents(s, m)| <= 1
  {
  }
}
