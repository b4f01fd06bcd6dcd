/** The value-level part of `drawEdge`: cleaning the routed polyline, the
    edge's `edge<N>` identifier, the arrow marker reference and the label's
    backing box. The curve fitted through the points, the label anchor and
    the label's measured bounds come from outside and are inputs here. */
module Edges {
  import opened Wrappers
  import opened Geometry

  /** A JavaScript number as the layout may leave it in an edge point. */
  datatype Coord = NaN | Num(v: real)

  datatype Point = Point(x: Coord, y: Coord)

  predicate HasY(p: Point) { p.y.Num? }

  /** `points.filter(p => !Number.isNaN(p.y))`. */
  function SanitizePoints(ps: seq<Point>): (r: seq<Point>)
    ensures |r| <= |ps|
    ensures forall i :: 0 <= i < |r| ==> HasY(r[i])
  {
    if ps == [] then [] else (if HasY(ps[0]) then [ps[0]] else []) + SanitizePoints(ps[1..])
  }

  /** Filtering a concatenation filters each part and keeps them in order. */
  lemma {:induction false} SanitizeAppend(a: seq<Point>, b: seq<Point>)
    ensures SanitizePoints(a + b) == SanitizePoints(a) + SanitizePoints(b)
  {
    if a == [] {
      assert a + b == b;
    } else {
      assert (a + b)[1..] == a[1..] + b;
      SanitizeAppend(a[1..], b);
    }
  }

  /** A point survives exactly when it was there and its `y` is a number. */
  lemma {:induction false} SanitizeMembership(ps: seq<Point>, p: Point)
    ensures p in SanitizePoints(ps) <==> p in ps && HasY(p)
  {
    if ps != [] {
      SanitizeMembership(ps[1..], p);
      assert ps == [ps[0]] + ps[1..];
    }
  }

  /** The filter never adds a point and never duplicates one. */
  lemma {:induction false} SanitizeSubMultiset(ps: seq<Point>)
    ensures multiset(SanitizePoints(ps)) <= multiset(ps)
  {
    if ps != [] {
      SanitizeSubMultiset(ps[1..]);
      assert ps == [ps[0]] + ps[1..];
    }
  }

  /** A polyline without NaN `y` values is left as it is. */
  lemma {:induction false} SanitizeClean(ps: seq<Point>)
    requires forall i :: 0 <= i < |ps| ==> HasY(ps[i])
    ensures SanitizePoints(ps) == ps
  {
    if ps != [] {
      SanitizeClean(ps[1..]);
    }
  }

  /** Filtering twice is filtering once. */
  lemma SanitizeIdempotent(ps: seq<Point>)
    ensures SanitizePoints(SanitizePoints(ps)) == SanitizePoints(ps)
  {
    SanitizeClean(SanitizePoints(ps));
  }

  function DigitChar(d: nat): char
    requires d < 10
  {
    (48 + d) as char
  }

  function DigitValue(c: char): nat {
    if '0' <= c <= '9' then (c as int - 48) as nat else 0
  }

  /** JavaScript's decimal rendering of a non-negative integer. */
  function NatToString(n: nat): (s: string)
    ensures |s| >= 1
    ensures forall i :: 0 <= i < |s| ==> '0' <= s[i] <= '9'
  {
    if n < 10 then [DigitChar(n)] else NatToString(n / 10) + [DigitChar(n % 10)]
  }

  /** Reading a string of decimal digits back as a number. */
  function DecimalValue(s: string): nat {
    if s == [] then 0 else 10 * DecimalValue(s[..|s| - 1]) + DigitValue(s[|s| - 1])
  }

  lemma {:induction false} DecimalRoundTrip(n: nat)
    ensures DecimalValue(NatToString(n)) == n
  {
    var s := NatToString(n);
    if n >= 10 {
      DecimalRoundTrip(n / 10);
      assert s[..|s| - 1] == NatToString(n / 10);
    }
  }

  /** The rendering has no leading zero: it starts with `0` only for 0 itself,
      which is rendered as the single digit `0`. */
  lemma {:induction false} NatToStringCanonical(n: nat)
    ensures NatToString(n)[0] == '0' <==> n == 0
    ensures NatToString(n)[0] == '0' ==> NatToString(n) == "0"
  {
    if n >= 10 {
      NatToStringCanonical(n / 10);
      assert NatToString(n)[0] == NatToString(n / 10)[0];
    }
  }

  /** The identifier of the N-th edge drawn since the module was loaded. */
  function EdgeId(n: nat): (id: string)
    ensures |id| > 4 && id[..4] == "edge" && id[4..] == NatToString(n)
  {
    "edge" + NatToString(n)
  }

  /** Different counter values give different edge identifiers. */
  lemma EdgeIdInjective(a: nat, b: nat)
    requires a != b
    ensures EdgeId(a) != EdgeId(b)
  {
    if EdgeId(a) == EdgeId(b) {
      assert NatToString(a) == EdgeId(a)[4..];
      assert NatToString(b) == EdgeId(b)[4..];
      DecimalRoundTrip(a);
      DecimalRoundTrip(b);
    }
  }

  /** `stateDb.relationType`: the four relation kinds. */
  datatype RelationType = Aggregation | Extension | Composition | Dependency

  /** `getRelationType`: the marker-name stem of each relation kind. */
  function RelationTypeName(t: RelationType): (name: string)
    ensures |name| > 0
  {
    match t
    case Aggregation => "aggregation"
    case Extension => "extension"
    case Composition => "composition"
    case Dependency => "dependency"
  }

  /** The id `insertMarkers` gives the one arrow marker it defines. */
  const MarkerId: string := "dependencyEnd"

  /** The `marker-end` reference every edge gets. The URL prefix is empty
      because the configuration never sets `arrowMarkerAbsolute`, and the
      kind is always the dependency kind, whatever the relation is, so the
      reference names the one marker that is defined. */
  function MarkerEnd(): (ref: string)
    ensures ref == "url(#" + MarkerId + ")"
  {
    var url := "";
    "url(" + url + "#" + RelationTypeName(Dependency) + "End" + ")"
  }

  /** A transition as the parser records it; `title` is None when the
      transition has no label. */
  datatype Relation = Relation(id1: string, id2: string, title: Option<string>)

  /** A drawn edge label: its text, the anchor its `x`/`y` attributes are
      set to, and the backing rectangle inserted behind it. */
  datatype EdgeLabel = EdgeLabel(text: string, anchor: Point2, backing: Box)

  /** Everything `drawEdge` decides for one edge: the `id` of the path, the
      points the curve is fitted through, the marker reference and the label. */
  datatype DrawnEdge = DrawnEdge(id: string, points: seq<Point>, markerEnd: string, caption: Option<EdgeLabel>)

  /** The edge drawn with counter value `n`. `labelPosition` stands for
      `utils.calcLabelPosition` and `measureLabel` for the label's `getBBox`. */
  function EdgeDrawing(n: nat, points: seq<Point>, relation: Relation,
                       labelPosition: seq<Point> -> Point2,
                       measureLabel: (string, Point2) -> Box): (e: DrawnEdge)
    ensures e.id == EdgeId(n)
    ensures e.points == SanitizePoints(points)
    ensures e.markerEnd == "url(#" + MarkerId + ")"
    ensures e.caption.Some? <==> relation.title.Some?
    ensures e.caption.Some? ==>
      && e.caption.value.text == relation.title.value
      && e.caption.value.anchor == labelPosition(e.points)
      && e.caption.value.backing == EdgeLabelBox(measureLabel(relation.title.value, e.caption.value.anchor))
      && Surrounds(e.caption.value.backing, measureLabel(e.caption.value.text, e.caption.value.anchor), Padding / 2.0)
  {
    var cleaned := SanitizePoints(points);
    var caption :=
      match relation.title
      case None => None
      case Some(title) =>
        var anchor := labelPosition(cleaned);
        Some(EdgeLabel(title, anchor, EdgeLabelBox(measureLabel(title, anchor))));
    DrawnEdge(EdgeId(n), cleaned, MarkerEnd(), caption)
  }
}
