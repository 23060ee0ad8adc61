/**
 * The window's simulation manager (class Game of hellogosu.rb): it owns the
 * physics space, the live dynamic entities and the static obstacle lines,
 * and runs the per-frame step / liveness / removal pass.
 */
module Simulation {
  import opened Config
  import opened Geometry
  import opened Physics
  import opened Sequences
  import opened Entities

  /** A draw of Ruby's `rand(lo..hi)` on integers: any value of the inclusive range. */
  method RandInt(lo: int, hi: int) returns (r: int)
    requires lo <= hi
    ensures lo <= r <= hi
  {
    r :| lo <= r <= hi;
  }

  /**
   * A closed range of reals.  Named so that the `:|` choice in RandReal has a
   * term for the verifier to trigger on.
   */
  predicate Within(r: real, lo: real, hi: real) {
    lo <= r <= hi
  }

  /** A draw of Ruby's `rand(lo..hi)` on floats: any value of the closed range. */
  method RandReal(lo: real, hi: real) returns (r: real)
    requires lo <= hi
    ensures lo <= r <= hi
  {
    assert Within(lo, lo, hi);
    r :| Within(r, lo, hi);
    assert Within(r, lo, hi);
  }

  /** Where random entities may appear: whole-number coordinates above the screen's stream. */
  predicate InSpawnBand(p: Vec2) {
    STREAM_LEFT_BORDER as real <= p.x <= STREAM_RIGHT_BORDER as real &&
    SPAWN_TOP as real <= p.y <= SPAWN_BOTTOM as real &&
    p.x == p.x.Floor as real && p.y == p.y.Floor as real
  }

  /** `vec2(rand(STREAM_LEFT_BORDER..STREAM_RIGHT_BORDER), rand(-5000..50))`. */
  method SpawnPosition() returns (p: Vec2)
    ensures InSpawnBand(p)
  {
    var x := RandInt(STREAM_LEFT_BORDER, STREAM_RIGHT_BORDER);
    var y := RandInt(SPAWN_TOP, SPAWN_BOTTOM);
    p := Vec2(x as real, y as real);
  }

  /** A ball as the start-up stream creates it: random scale, placed in the spawn band, live. */
  predicate StreamBall(e: Entity)
    reads e, e.body
  {
    e.kind.BallKind? && 0.75 <= e.kind.scale <= 1.2 && InSpawnBand(e.body.p) && !e.delete
  }

  /** A box as the start-up stream creates it: random size, placed in the spawn band, live. */
  predicate StreamBox(e: Entity)
    reads e, e.body
  {
    e.kind.BoxKind? && 20.0 <= e.kind.width <= 40.0 && 20.0 <= e.kind.height <= 40.0 &&
    InSpawnBand(e.body.p) && !e.delete
  }

  /** The five obstacle segments created at start-up, as (begin, end). */
  const OBSTACLES: seq<(Vec2, Vec2)> := [
    (Vec2(250.0, 420.0), Vec2(400.0, 400.0)),
    (Vec2(700.0, 340.0), Vec2(250.0, 580.0)),
    (Vec2(200.0, 340.0), Vec2(150.0, 480.0)),
    (Vec2(290.0, 50.0), Vec2(310.0, 280.0)),
    (Vec2(610.0, 50.0), Vec2(590.0, 280.0))
  ]

  /** Where the anchored test box is placed, and its pin joint's anchors. */
  const TEST_BOX_POSITION: Vec2 := Vec2(400.0, 450.0)
  const PIN_ANCHOR_ON_BOX: Vec2 := Vec2(40.0, 0.0)
  const PIN_ANCHOR_IN_WORLD: Vec2 := Vec2(400.0, 405.0)

  class Game {
    const space: Space
    var objects: seq<Entity>
    var staticLines: seq<StaticLine>

    /**
     * The registry matches the collections: the space holds exactly the
     * bodies of the live entities and the shapes of the live entities and
     * of the static lines; no body or shape belongs to two entities.
     */
    ghost predicate Valid()
      reads this, space
    {
      Distinct(objects) &&
      space.bodies == BodiesOf(objects) &&
      space.shapes == ShapesOf(objects) + LineShapesOf(staticLines) &&
      ShapesOf(objects) !! LineShapesOf(staticLines)
    }

    /**
     * `Game.new`: gravity (0, 90) and 15 solver iterations, the five
     * obstacle lines, HOW_MANY_BALLS balls and HOW_MANY_BOXES boxes at random
     * places in the spawn band, then the test box at (400, 450) pinned to a
     * static body.
     */
    constructor ()
      ensures Valid()
      ensures space.gravity == Vec2(0.0, 90.0) && space.iterations == 15
      ensures Segments(staticLines) == OBSTACLES
      ensures |objects| == HOW_MANY_BALLS + HOW_MANY_BOXES + 1
      ensures forall i :: 0 <= i < HOW_MANY_BALLS ==> StreamBall(objects[i])
      ensures forall i :: HOW_MANY_BALLS <= i < HOW_MANY_BALLS + HOW_MANY_BOXES ==> StreamBox(objects[i])
      ensures var testBox := objects[HOW_MANY_BALLS + HOW_MANY_BOXES];
        testBox.kind == BoxKind(5.0, 80.0) && !testBox.delete &&
        testBox.shape.geometry == Poly(BoxVerts(5.0, 80.0)) &&
        testBox.body.p == TEST_BOX_POSITION && testBox.body.a == BOX_INITIAL_ANGLE &&
        |space.constraints| == 1 && space.constraints[0].a == testBox.body &&
        space.constraints[0].b.isStatic && space.constraints[0].b !in space.bodies &&
        space.constraints[0].anchorA == PIN_ANCHOR_ON_BOX &&
        space.constraints[0].anchorB == PIN_ANCHOR_IN_WORLD
    {
      var s := new Space();
      s.gravity := Vec2(0.0, 90.0);
      s.iterations := 15;
      space := s;
      objects := [];
      staticLines := [];
      new;

      AddObstacles();
      SpawnBalls();
      SpawnBoxes();

      AddTestBox();
    }

    /** The five `new_static_line` calls of `initialize`, in order. */
    method AddObstacles()
      requires Valid() && staticLines == []
      modifies this`staticLines, space`shapes
      ensures Valid() && objects == old(objects) && space.bodies == old(space.bodies)
      ensures Segments(staticLines) == OBSTACLES
    {
      for k := 0 to |OBSTACLES|
        invariant Valid() && objects == old(objects) && space.bodies == old(space.bodies)
        invariant Segments(staticLines) == OBSTACLES[..k]
      {
        var line := new StaticLine(OBSTACLES[k].0, OBSTACLES[k].1);
        NewStaticLine(line);
        assert OBSTACLES[..k + 1] == OBSTACLES[..k] + [OBSTACLES[k]];
      }
    }

    /**
     * The last part of `initialize`: a 5 x 80 box registered with `new_box`
     * at (400, 450), pinned by a pin joint to a new static body that is not
     * itself registered.
     */
    method AddTestBox()
      requires Valid() && space.constraints == []
      modifies this`objects, space`bodies, space`shapes, space`constraints
      ensures Valid()
      ensures |objects| == |old(objects)| + 1 && objects[..|old(objects)|] == old(objects)
      ensures var testBox := objects[|old(objects)|];
        testBox.kind == BoxKind(5.0, 80.0) && !testBox.delete &&
        testBox.shape.geometry == Poly(BoxVerts(5.0, 80.0)) &&
        testBox.body.p == TEST_BOX_POSITION && testBox.body.a == BOX_INITIAL_ANGLE &&
        |space.constraints| == 1 && space.constraints[0].a == testBox.body &&
        space.constraints[0].b.isStatic && space.constraints[0].b !in space.bodies &&
        space.constraints[0].anchorA == PIN_ANCHOR_ON_BOX &&
        space.constraints[0].anchorB == PIN_ANCHOR_IN_WORLD
    {
      var testBox := new Entity.Box(5.0, 80.0);
      NewBox(testBox, TEST_BOX_POSITION);

      var anchor := new Body.Static();
      space.AddConstraint(PinJoint(testBox.body, anchor, PIN_ANCHOR_ON_BOX, PIN_ANCHOR_IN_WORLD));
    }

    /** `HOW_MANY_BALLS.times`: append that many balls of random scale at random places. */
    method SpawnBalls()
      requires Valid()
      modifies this`objects, space`bodies, space`shapes
      ensures Valid()
      ensures |objects| == |old(objects)| + HOW_MANY_BALLS
      ensures objects[..|old(objects)|] == old(objects)
      ensures forall j :: |old(objects)| <= j < |objects| ==>
        StreamBall(objects[j])
    {
      var i := 0;
      while i < HOW_MANY_BALLS
        invariant 0 <= i <= HOW_MANY_BALLS
        invariant Valid() && |objects| == |old(objects)| + i
        invariant objects[..|old(objects)|] == old(objects)
        invariant forall j :: |old(objects)| <= j < |objects| ==>
          StreamBall(objects[j])
      {
        var scale := RandReal(0.75, 1.2);
        var ball := new Entity.Ball(scale);
        var position := SpawnPosition();
        NewBall(ball, position);
        i := i + 1;
      }
    }

    /**
     * `HOW_MANY_BOXES.times`: append that many boxes of random size at random
     * places (registered through `new_ball`, as the source does).
     */
    method SpawnBoxes()
      requires Valid()
      modifies this`objects, space`bodies, space`shapes
      ensures Valid()
      ensures |objects| == |old(objects)| + HOW_MANY_BOXES
      ensures objects[..|old(objects)|] == old(objects)
      ensures forall j :: |old(objects)| <= j < |objects| ==>
        StreamBox(objects[j])
    {
      var i := 0;
      while i < HOW_MANY_BOXES
        invariant 0 <= i <= HOW_MANY_BOXES
        invariant Valid() && |objects| == |old(objects)| + i
        invariant objects[..|old(objects)|] == old(objects)
        invariant forall j :: |old(objects)| <= j < |objects| ==>
          StreamBox(objects[j])
      {
        var width := RandReal(20.0, 40.0);
        var height := RandReal(20.0, 40.0);
        var box := new Entity.Box(width, height);
        var position := SpawnPosition();
        NewBall(box, position);
        i := i + 1;
      }
    }

    /**
     * `new_ball`: register the entity's body, place it, register its shape
     * and append the entity to the live objects.
     */
    method NewBall(e: Entity, position: Vec2)
      requires Valid()
      requires e.body !in space.bodies && e.shape !in space.shapes
      modifies this`objects, space`bodies, space`shapes, e.body`p
      ensures Valid()
      ensures objects == old(objects) + [e] && staticLines == old(staticLines)
      ensures space.bodies == old(space.bodies) + {e.body}
      ensures space.shapes == old(space.shapes) + {e.shape}
      ensures e.body.p == position
    {
      space.AddBody(e.body);
      e.body.p := position;
      space.AddShape(e.shape);
      objects := objects + [e];
      assert BodiesOf(objects) == BodiesOf(old(objects)) + {e.body};
      assert ShapesOf(objects) == ShapesOf(old(objects)) + {e.shape};
    }

    /** `new_box`: the same registration as `new_ball`. */
    method NewBox(e: Entity, position: Vec2)
      requires Valid()
      requires e.body !in space.bodies && e.shape !in space.shapes
      modifies this`objects, space`bodies, space`shapes, e.body`p
      ensures Valid()
      ensures objects == old(objects) + [e] && staticLines == old(staticLines)
      ensures space.bodies == old(space.bodies) + {e.body}
      ensures space.shapes == old(space.shapes) + {e.shape}
      ensures e.body.p == position
    {
      NewBall(e, position);
    }

    /**
     * `new_static_line`: register only the segment's shape (its static body
     * stays out of the space) and append the line.
     */
    method NewStaticLine(line: StaticLine)
      requires Valid()
      requires line.shape !in space.shapes
      modifies this`staticLines, space`shapes
      ensures Valid()
      ensures staticLines == old(staticLines) + [line] && objects == old(objects)
      ensures Segments(staticLines) == Segments(old(staticLines)) + [(line.begin, line.end)]
      ensures space.shapes == old(space.shapes) + {line.shape}
      ensures space.bodies == old(space.bodies)
    {
      space.AddShape(line.shape);
      staticLines := staticLines + [line];
      assert LineShapesOf(staticLines) == LineShapesOf(old(staticLines)) + {line.shape};
    }

    /**
     * `update`: one fixed physics step, then the liveness pass over the
     * live objects, then `@objects -= objects_to_delete`.
     */
    method Update()
      requires Valid()
      modifies this`objects, space`bodies, space`shapes, space.bodies`p, space.bodies`a, objects`delete
      ensures Valid()
      ensures staticLines == old(staticLines)
      ensures forall e :: e in old(objects) ==>
        (e.delete <==> old(e.delete) || e.body.p.y > SCREEN_HEIGHT as real)
      ensures objects == Unflagged(old(objects))
      ensures forall e :: e in objects ==> !e.delete && e.body.p.y <= SCREEN_HEIGHT as real
      ensures |objects| == |old(objects)| - |Flagged(old(objects))|
      ensures space.bodies == old(space.bodies) - BodiesOf(Flagged(old(objects)))
      ensures space.shapes == old(space.shapes) - ShapesOf(Flagged(old(objects)))
      ensures forall e :: e in old(objects) ==>
        (e.body in space.bodies <==> !e.delete) && (e.shape in space.shapes <==> !e.delete)
      ensures (forall e :: e in old(objects) ==> !old(e.delete) && e.body.p.y <= SCREEN_HEIGHT as real) ==>
        objects == old(objects) && space.bodies == old(space.bodies) && space.shapes == old(space.shapes)
    {
      ghost var live := objects;
      space.Step(TIME_STEP);
      var toDelete := CheckLiveness(objects);
      objects := Difference(objects, toDelete);
      PruneFlagged(live, toDelete, LineShapesOf(staticLines));
    }

    /**
     * The loop of `update`: run each entity's `update`; when it is now
     * flagged, record it in `objects_to_delete` and take its body and shape
     * out of the space straight away.
     */
    method CheckLiveness(live: seq<Entity>) returns (toDelete: seq<Entity>)
      requires Distinct(live) && BodiesOf(live) <= space.bodies && ShapesOf(live) <= space.shapes
      modifies space`bodies, space`shapes, live`delete
      ensures forall e :: e in live ==>
        (e.delete <==> old(e.delete) || e.body.p.y > SCREEN_HEIGHT as real)
      ensures forall e :: e in toDelete ==> e in live
      ensures forall e :: e in live ==> (e in toDelete <==> e.delete)
      ensures space.bodies == old(space.bodies) - BodiesOf(toDelete)
      ensures space.shapes == old(space.shapes) - ShapesOf(toDelete)
    {
      toDelete := [];
      var i := 0;
      while i < |live|
        invariant 0 <= i <= |live|
        invariant forall j :: 0 <= j < i ==>
          (live[j].delete <==> old(live[j].delete) || live[j].body.p.y > SCREEN_HEIGHT as real)
        invariant forall j :: i <= j < |live| ==> live[j].delete == old(live[j].delete)
        invariant forall f :: f in toDelete ==> f in live[..i] && f.delete
        invariant forall j :: 0 <= j < i && live[j].delete ==> live[j] in toDelete
        invariant space.bodies == old(space.bodies) - BodiesOf(toDelete)
        invariant space.shapes == old(space.shapes) - ShapesOf(toDelete)
      {
        var e := live[i];
        DistinctAt(live, i);
        NotBefore(live, i, toDelete);
        e.Update();
        if e.Deleted() {
          OfSnoc(toDelete, e);
          toDelete := toDelete + [e];
          space.RemoveBody(e.body);
          space.RemoveShape(e.shape);
        }
        assert live[..i + 1] == live[..i] + [e];
        i := i + 1;
      }
      assert live[..i] == live;
      forall e | e in live
        ensures e in toDelete <==> e.delete
        ensures e.delete <==> old(e.delete) || e.body.p.y > SCREEN_HEIGHT as real
      {
        var j :| 0 <= j < |live| && live[j] == e;
      }
    }
  }
}
