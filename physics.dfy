/**
 * The part of the Chipmunk physics world the demo relies on: bodies with a
 * position and an angle, shapes attached to bodies, and a space that is a
 * registry of bodies, shapes and constraints.  The dynamics themselves are
 * not modelled: a step may move every registered body anywhere.
 */
module Physics {
  import opened Geometry

  class Body {
    /** Position (`body.p`) and angle (`body.a`), written by the engine each step. */
    var p: Vec2
    var a: real
    /** True for `CP::Body.new_static`, an immovable body of infinite mass. */
    const isStatic: bool

    /** `CP::Body.new(mass, moment)`: a dynamic body at the origin, angle 0. */
    constructor Dynamic()
      ensures p == Vec2(0.0, 0.0) && a == 0.0 && !isStatic
    {
      p, a, isStatic := Vec2(0.0, 0.0), 0.0, false;
    }

    /** `CP::Body.new_static`. */
    constructor Static()
      ensures p == Vec2(0.0, 0.0) && a == 0.0 && isStatic
    {
      p, a, isStatic := Vec2(0.0, 0.0), 0.0, true;
    }
  }

  /** A collision shape attached to a body; its geometry is fixed. */
  class Shape {
    const body: Body
    const geometry: ShapeGeometry

    constructor (body: Body, geometry: ShapeGeometry)
      ensures this.body == body && this.geometry == geometry
    {
      this.body, this.geometry := body, geometry;
    }
  }

  /** `CP::Constraint::PinJoint`: two bodies and one anchor on each. */
  datatype PinJoint = PinJoint(a: Body, b: Body, anchorA: Vec2, anchorB: Vec2)

  /** `CP::Space`: the registry of what the engine simulates. */
  class Space {
    var gravity: Vec2
    var iterations: int
    var bodies: set<Body>
    var shapes: set<Shape>
    var constraints: seq<PinJoint>

    /** A new space: nothing registered, zero gravity, Chipmunk's 10 iterations. */
    constructor ()
      ensures bodies == {} && shapes == {} && constraints == []
      ensures gravity == Vec2(0.0, 0.0) && iterations == 10
    {
      gravity, iterations := Vec2(0.0, 0.0), 10;
      bodies, shapes, constraints := {}, {}, [];
    }

    /** `add_body`; Chipmunk refuses a body that is already in the space. */
    method AddBody(b: Body)
      requires b !in bodies
      modifies this`bodies
      ensures bodies == old(bodies) + {b}
    {
      bodies := bodies + {b};
    }

    /** `add_shape`; Chipmunk refuses a shape that is already in the space. */
    method AddShape(s: Shape)
      requires s !in shapes
      modifies this`shapes
      ensures shapes == old(shapes) + {s}
    {
      shapes := shapes + {s};
    }

    /** `add_constraint`. */
    method AddConstraint(c: PinJoint)
      modifies this`constraints
      ensures constraints == old(constraints) + [c]
    {
      constraints := constraints + [c];
    }

    /** `remove_body`; Chipmunk refuses a body that is not in the space. */
    method RemoveBody(b: Body)
      requires b in bodies
      modifies this`bodies
      ensures bodies == old(bodies) - {b}
    {
      bodies := bodies - {b};
    }

    /** `remove_shape`; Chipmunk refuses a shape that is not in the space. */
    method RemoveShape(s: Shape)
      requires s in shapes
      modifies this`shapes
      ensures shapes == old(shapes) - {s}
    {
      shapes := shapes - {s};
    }

    /**
     * `step(dt)`, opaque: each registered body may end up at any position and
     * angle.  Its frame is the whole contract that matters: no other object,
     * and no registration, changes.
     */
    method Step(dt: real)
      modifies bodies`p, bodies`a
      ensures bodies == old(bodies) && shapes == old(shapes)
    {
      var pending := bodies;
      while pending != {}
        invariant pending <= bodies
        decreases pending
      {
        var b :| b in pending;
        var p: Vec2, a: real :| true;
        b.p, b.a := p, a;
        pending := pending - {b};
      }
    }
  }
}
