/**
 * The demo's objects: the dynamic entities (Ball and Box, which share their
 * liveness logic) and the static obstacle lines.
 */
module Entities {
  import opened Config
  import opened Geometry
  import opened Physics
  import opened Sequences

  /** What distinguishes a Ball from a Box. */
  datatype Kind =
    | BallKind(scale: real)
    | BoxKind(width: real, height: real)

  /** A falling Ball or Box: a body, its shape, and the `@delete` flag. */
  class Entity {
    const kind: Kind
    const body: Body
    const shape: Shape
    var delete: bool

    /** `Ball.new(mass, friction, scale)`: a circle of radius 5 * scale at the origin. */
    constructor Ball(scale: real)
      ensures kind == BallKind(scale) && !delete
      ensures fresh(body) && fresh(shape) && shape.body == body
      ensures shape.geometry == Circle(BALL_BASE_RADIUS * scale)
      ensures !body.isStatic && body.p == Vec2(0.0, 0.0) && body.a == 0.0
    {
      var b := new Body.Dynamic();
      b.p := Vec2(0.0, 0.0);
      var sh := new Shape(b, Circle(BALL_BASE_RADIUS * scale));
      kind, body, shape, delete := BallKind(scale), b, sh, false;
    }

    /**
     * `Box.new(width, height)`: the axis-swapped polygon at (100, 100),
     * turned to the initial angle of 3*pi/2.
     */
    constructor Box(width: real, height: real)
      ensures kind == BoxKind(width, height) && !delete
      ensures fresh(body) && fresh(shape) && shape.body == body
      ensures shape.geometry == Poly(BoxVerts(width, height))
      ensures !body.isStatic && body.p == Vec2(100.0, 100.0) && body.a == BOX_INITIAL_ANGLE
    {
      var b := new Body.Dynamic();
      b.p := Vec2(100.0, 100.0);
      var sh := new Shape(b, Poly(BoxVerts(width, height)));
      b.a := BOX_INITIAL_ANGLE;
      kind, body, shape, delete := BoxKind(width, height), b, sh, false;
    }

    /** `delete?`: the entity's flag. */
    predicate Deleted(): (r: bool)
      reads this
      ensures r <==> delete
    {
      delete
    }

    /**
     * `update`: raise the flag once the body has fallen below the bottom of
     * the screen.  The flag is never lowered again.
     */
    method Update()
      modifies this`delete
      ensures delete <==> old(delete) || body.p.y > SCREEN_HEIGHT as real
      ensures old(delete) ==> delete
    {
      if body.p.y > SCREEN_HEIGHT as real {
        delete := true;
      }
    }
  }

  /** A fixed obstacle segment on a static body of its own. */
  class StaticLine {
    const begin: Vec2
    const end: Vec2
    const body: Body
    const shape: Shape

    /** `StaticLine.new(begin, end)`: a segment shape of thickness 3 on a new static body. */
    constructor (begin: Vec2, end: Vec2)
      ensures this.begin == begin && this.end == end
      ensures fresh(body) && fresh(shape) && body.isStatic && shape.body == body
      ensures shape.geometry == Segment(begin, end, 3.0)
    {
      var b := new Body.Static();
      var sh := new Shape(b, Segment(begin, end, 3.0));
      this.begin, this.end, body, shape := begin, end, b, sh;
    }
  }

  function BodiesOf(s: seq<Entity>): set<Body> {
    set e | e in s :: e.body
  }

  function ShapesOf(s: seq<Entity>): set<Shape> {
    set e | e in s :: e.shape
  }

  function LineShapesOf(s: seq<StaticLine>): set<Shape> {
    set l | l in s :: l.shape
  }

  /** The (begin, end) endpoints of each line, in order. */
  function Segments(s: seq<StaticLine>): seq<(Vec2, Vec2)> {
    seq(|s|, k requires 0 <= k < |s| => (s[k].begin, s[k].end))
  }

  /** No two entities of s share a body or a shape (so no entity occurs twice). */
  ghost predicate Distinct(s: seq<Entity>) {
    forall i, j :: 0 <= i < j < |s| ==> s[i].body != s[j].body && s[i].shape != s[j].shape
  }

  /** The entities of s whose delete flag is set, in their order in s. */
  function Flagged(s: seq<Entity>): (r: seq<Entity>)
    reads s
    ensures |r| <= |s|
    ensures forall e :: e in r ==> e in s && e.delete
    ensures forall e :: e in s && e.delete ==> e in r
  {
    if s == [] then []
    else
      var init, last := s[..|s| - 1], s[|s| - 1];
      assert s == init + [last];
      if last.delete then Flagged(init) + [last] else Flagged(init)
  }

  /** The entities of s whose delete flag is clear, in their order in s. */
  function Unflagged(s: seq<Entity>): (r: seq<Entity>)
    reads s
    ensures |r| <= |s|
    ensures forall e :: e in r ==> e in s && !e.delete
    ensures forall e :: e in s && !e.delete ==> e in r
  {
    if s == [] then []
    else
      var init, last := s[..|s| - 1], s[|s| - 1];
      assert s == init + [last];
      if last.delete then Unflagged(init) else Unflagged(init) + [last]
  }

  /** Every entity is either flagged or not: the two filters split s. */
  lemma {:induction false} FlaggedPartition(s: seq<Entity>)
    ensures |Flagged(s)| + |Unflagged(s)| == |s|
  {
    if s != [] {
      FlaggedPartition(s[..|s| - 1]);
    }
  }

  /**
   * Subtracting a list that holds exactly the flagged entities of s (Ruby's
   * `@objects -= objects_to_delete`) leaves the unflagged ones, in order.
   */
  lemma {:induction false} DifferenceOfFlagged(s: seq<Entity>, t: seq<Entity>)
    requires forall e :: e in s ==> (e in t <==> e.delete)
    ensures Difference(s, t) == Unflagged(s)
  {
    if s != [] {
      var init := s[..|s| - 1];
      assert forall e :: e in init ==> e in s;
      DifferenceOfFlagged(init, t);
    }
  }

  /** When nothing is flagged, the unflagged entities are all of s. */
  lemma {:induction false} UnflaggedWhenNoneFlagged(s: seq<Entity>)
    requires forall e :: e in s ==> !e.delete
    ensures Unflagged(s) == s && Flagged(s) == []
  {
    if s != [] {
      var init := s[..|s| - 1];
      assert forall e :: e in init ==> e in s;
      UnflaggedWhenNoneFlagged(init);
    }
  }

  /** Filtering keeps bodies and shapes pairwise distinct. */
  lemma {:induction false} UnflaggedDistinct(s: seq<Entity>)
    requires Distinct(s)
    ensures Distinct(Unflagged(s))
  {
    if s != [] {
      var init, last := s[..|s| - 1], s[|s| - 1];
      assert Distinct(init);
      UnflaggedDistinct(init);
      if !last.delete {
        var u := Unflagged(init);
        forall i | 0 <= i < |u|
          ensures u[i].body != last.body && u[i].shape != last.shape
        {
          assert u[i] in init;
          var j :| 0 <= j < |init| && init[j] == u[i];
          assert s[j] == u[i];
        }
      }
    }
  }

  /**
   * With distinct bodies and shapes, unregistering the flagged entities
   * leaves registered exactly the bodies and shapes of the unflagged ones.
   */
  lemma RemovingFlagged(s: seq<Entity>)
    requires Distinct(s)
    ensures BodiesOf(s) - BodiesOf(Flagged(s)) == BodiesOf(Unflagged(s))
    ensures ShapesOf(s) - ShapesOf(Flagged(s)) == ShapesOf(Unflagged(s))
  {
    forall e, f | e in s && f in s && (e.body == f.body || e.shape == f.shape)
      ensures e == f
    {
      var i :| 0 <= i < |s| && s[i] == e;
      var j :| 0 <= j < |s| && s[j] == f;
      assert i == j;
    }
  }

  /** Distinct, read from the point of view of one position. */
  lemma DistinctAt(s: seq<Entity>, i: int)
    requires Distinct(s) && 0 <= i < |s|
    ensures forall j :: 0 <= j < |s| && j != i ==>
      s[j] != s[i] && s[j].body != s[i].body && s[j].shape != s[i].shape
  {
  }

  /** An entity shares no body or shape with the entities before it. */
  lemma NotBefore(s: seq<Entity>, i: int, t: seq<Entity>)
    requires Distinct(s) && 0 <= i < |s|
    requires forall f :: f in t ==> f in s[..i]
    ensures s[i] !in t && s[i].body !in BodiesOf(t) && s[i].shape !in ShapesOf(t)
  {
    forall f | f in t
      ensures f != s[i] && f.body != s[i].body && f.shape != s[i].shape
    {
      var j :| 0 <= j < i && s[..i][j] == f;
      assert s[j] == f;
    }
  }

  lemma OfSnoc(t: seq<Entity>, e: Entity)
    ensures BodiesOf(t + [e]) == BodiesOf(t) + {e.body}
    ensures ShapesOf(t + [e]) == ShapesOf(t) + {e.shape}
  {
  }

  lemma SubtractFromUnion<T>(a: set<T>, b: set<T>, d: set<T>)
    requires a !! b && d <= a
    ensures (a + b) - d == (a - d) + b
  {
  }

  /**
   * The removal half of the update pass.  When t holds exactly the flagged
   * entities of s, subtracting t from s leaves the unflagged entities, in
   * order and still distinct; the count drops by the number flagged; and
   * taking the flagged entities' bodies and shapes out of the registry
   * leaves those of the survivors (plus the untouched static shapes).
   */
  lemma {:induction false} PruneFlagged(s: seq<Entity>, t: seq<Entity>, lines: set<Shape>)
    requires Distinct(s) && ShapesOf(s) !! lines
    requires forall e :: e in t ==> e in s
    requires forall e :: e in s ==> (e in t <==> e.delete)
    ensures Difference(s, t) == Unflagged(s)
    ensures Distinct(Unflagged(s)) && ShapesOf(Unflagged(s)) !! lines
    ensures |Unflagged(s)| == |s| - |Flagged(s)|
    ensures BodiesOf(t) == BodiesOf(Flagged(s)) && ShapesOf(t) == ShapesOf(Flagged(s))
    ensures BodiesOf(s) - BodiesOf(Flagged(s)) == BodiesOf(Unflagged(s))
    ensures (ShapesOf(s) + lines) - ShapesOf(Flagged(s)) == ShapesOf(Unflagged(s)) + lines
    ensures (forall e :: e in s ==> !e.delete) ==> Unflagged(s) == s && Flagged(s) == []
  {
    DifferenceOfFlagged(s, t);
    UnflaggedDistinct(s);
    FlaggedPartition(s);
    RemovingFlagged(s);
    assert ShapesOf(Flagged(s)) <= ShapesOf(s);
    SubtractFromUnion(ShapesOf(s), lines, ShapesOf(Flagged(s)));
    if forall e :: e in s ==> !e.delete {
      UnflaggedWhenNoneFlagged(s);
    }
  }
}
