# hellogosu: the simulation bookkeeping, in Dafny

`hellogosu.rb` is a Gosu/Chipmunk demo: a stream of balls and boxes falls
through five static obstacle lines, and a test box hangs from a pin joint.
The model covers the code that keeps track of the world around the physics.
Everything else in the file is a call into Chipmunk or Gosu.

- **Entities.** `Ball` and `Box` are one class, `Entities.Entity`, tagged by
  `kind`. Each has a body, a shape and the `@delete` flag.
  - The flag starts false.
  - `update` raises it once the body is below the screen (y > 700).
  - Nothing ever lowers it.
  - `delete?` is the predicate `Entity.Deleted`.
- **The box polygon.** `Box` builds its polygon with width and height
  swapped, then turns the body to 3π/2. This is `Geometry.BoxVerts` and
  `Geometry.BOX_INITIAL_ANGLE`.
- **The space.** The Chipmunk `CP::Space` is a registry (`Physics.Space`): a
  set of registered bodies, a set of registered shapes, and the list of
  constraints.
  - Adding an item requires that it is not registered yet.
  - Removing an item requires that it is registered.
  - `step` is opaque. It may move and turn every registered body and changes
    nothing else.
- **The manager (`Simulation.Game`).**
  - `@objects` and `@static_lines` are sequence fields.
  - `Game.Valid` ties the two collections to the registry. The space holds
    exactly the bodies of the live entities, and the shapes of the live
    entities and of the static lines. No two entities share a body or a
    shape.
  - `new_ball`, `new_box` and `new_static_line` preserve `Valid`, and so does
    `update`.
  - `update` is the main subject. It steps the world. It then runs every
    entity's `update`. It unregisters each flagged entity inside the loop.
    Finally it applies Ruby's `@objects -= objects_to_delete`, which is the
    generic `Sequences.Difference`.
  - The proofs show what `update` leaves behind:
    - the survivors are exactly the unflagged entities, in their old order
      (`Entities.Unflagged`);
    - the dropped entities are exactly the flagged ones (`Entities.Flagged`),
      and their bodies and shapes left the space;
    - the survivors' bodies and shapes are still registered;
    - the size drops by the number flagged;
    - when no entity was flagged and none is past the bottom after the step,
      `update` leaves `@objects` and the space's registrations unchanged.
- **Start-up.** `Game.new` sets gravity (0, 90) and 15 iterations and adds
  the five obstacle lines. It spawns 2000 balls and 100 boxes at random
  whole-number places in the band x ∈ [150, 700], y ∈ [-5000, 50]. It adds
  the test box at (400, 450), pinned to a static body.
  - Each Ruby `rand(lo..hi)` is a nondeterministic choice in the closed
    range: `RandInt` for the integer draws, `RandReal` for the float draws.

Removal from the space happens inside the loop (hellogosu.rb:160-161); only
the list removal waits until hellogosu.rb:164. The code checks neither mass
nor size, so the model does not either.

## Model

| member | source | states |
|---|---|---|
| Geometry.BoxVerts | hellogosu.rb:77 | four corners (-h/2,-w/2), (-h/2,w/2), (h/2,w/2), (h/2,-w/2) in that order: every x is ±height/2 and every y is ±width/2 (the axis swap), neighbours share a coordinate, opposite corners are negatives of each other, and the corners sum to the origin (the polygon is centred) |
| Geometry.BoxInitialAngleIsThreeQuarterTurn | hellogosu.rb:82 | the initial box angle is 3·PI/2 with PI the decimal of Math::PI: three quarters of a full turn, strictly between π and 2π |
| Geometry.TestBoxExtents | hellogosu.rb:124 | for the 5 x 80 test box every vertex has x = ±40 and y = ±2.5 |
| Sequences.Difference | hellogosu.rb:164 | Ruby's Array#-: the result holds exactly the elements of s that are not in t, and it is no longer than s |
| Sequences.DifferenceOfNothing | hellogosu.rb:164 | subtracting an empty list returns the list unchanged |
| Sequences.DifferenceConcat | hellogosu.rb:164 | subtraction works piecewise over concatenation, so the survivors keep their relative order |
| Sequences.DifferenceSingleton | hellogosu.rb:164 | a single element survives exactly when it does not occur in the subtracted list |
| Physics.Body.Dynamic | hellogosu.rb:27-28 | a new dynamic body is not static and sits at the origin with angle 0 |
| Physics.Body.Static | hellogosu.rb:54 | `new_static` gives a static body |
| Physics.Shape.constructor | hellogosu.rb:29 | a shape is attached to the given body with the given geometry |
| Physics.Space.constructor | hellogosu.rb:104 | a new space has nothing registered |
| Physics.Space.AddBody | hellogosu.rb:134 | the body is added to the registered bodies; nothing else changes |
| Physics.Space.AddShape | hellogosu.rb:136 | the shape is added to the registered shapes; nothing else changes |
| Physics.Space.AddConstraint | hellogosu.rb:128 | the constraint is appended to the constraint list |
| Physics.Space.RemoveBody | hellogosu.rb:160 | the body leaves the registered bodies |
| Physics.Space.RemoveShape | hellogosu.rb:161 | the shape leaves the registered shapes |
| Physics.Space.Step | hellogosu.rb:155 | only the position and angle of registered bodies may change; registrations, delete flags and every other object stay as they were |
| Entities.Entity.Ball | hellogosu.rb:21-32 | a new ball is not flagged, has a fresh dynamic body at the origin, and a circle of radius 5 * scale on that body |
| Entities.Entity.Box | hellogosu.rb:68-83 | a new box is not flagged, has a fresh dynamic body at (100, 100) turned to 3π/2, and the BoxVerts polygon on that body |
| Entities.Entity.Deleted | hellogosu.rb:34-36 | `delete?` returns the `@delete` flag (`Box#delete?`, hellogosu.rb:89-91, is the same code) |
| Entities.Entity.Update | hellogosu.rb:38-40 | afterwards the flag is set if and only if it was already set or the body's y is above 700; a set flag is never cleared (`Box#update`, hellogosu.rb:85-87, is the same code) |
| Entities.StaticLine.constructor | hellogosu.rb:51-57 | the line keeps its endpoints and gets a fresh static body carrying a segment shape of thickness 3 |
| Entities.Flagged | hellogosu.rb:158-159 | the entities put on `objects_to_delete`: exactly the members of s whose flag is set |
| Entities.Unflagged | hellogosu.rb:164 | the survivors: exactly the members of s whose flag is clear |
| Entities.FlaggedPartition | hellogosu.rb:156-164 | every entity is either flagged or a survivor: the two counts add up to the length of s |
| Entities.DifferenceOfFlagged | hellogosu.rb:164 | subtracting a list that holds exactly the flagged entities leaves exactly the unflagged ones, in order |
| Entities.UnflaggedWhenNoneFlagged | hellogosu.rb:153-164 | when nothing is flagged, the survivors are the whole list and no entity is flagged |
| Entities.UnflaggedDistinct | hellogosu.rb:164 | filtering keeps the entities' bodies and shapes pairwise distinct |
| Entities.RemovingFlagged | hellogosu.rb:160-164 | once the flagged entities' bodies and shapes are taken away, the bodies and shapes of the survivors are exactly what is left |
| Entities.PruneFlagged | hellogosu.rb:156-164 | the removal half of `update`: the new `@objects` is the survivors in order, still distinct; the count drops by the number flagged; the space keeps the survivors' bodies and shapes and the static shapes |
| Simulation.RandInt | hellogosu.rb:118 | `rand(lo..hi)` on integers returns some value in the closed range |
| Simulation.RandReal | hellogosu.rb:118 | `rand(lo..hi)` on floats returns some value in the closed range |
| Simulation.SpawnPosition | hellogosu.rb:118 | a spawn position has whole-number coordinates with x in [150, 700] and y in [-5000, 50] |
| Simulation.Game.constructor | hellogosu.rb:101-130 | gravity (0, 90) and 15 iterations; the five obstacle segments in order; exactly 2000 + 100 + 1 entities; 2000 balls of scale in [0.75, 1.2], then 100 boxes of sides in [20, 40], all in the spawn band and not flagged; the last entity is the unflagged 5 x 80 test box at (400, 450) with angle 3π/2, pinned by the only constraint to an unregistered static body with anchors (40, 0) and (400, 405); the registry invariant holds |
| Simulation.Game.AddObstacles | hellogosu.rb:111-115 | the static lines are the five obstacle segments in source order; no entity and no body is added |
| Simulation.Game.SpawnBalls | hellogosu.rb:117-119 | appends exactly HOW_MANY_BALLS balls, all in the spawn band, unflagged and of scale in [0.75, 1.2], keeping the earlier entities and the registry invariant |
| Simulation.Game.SpawnBoxes | hellogosu.rb:120-122 | appends exactly HOW_MANY_BOXES boxes, all in the spawn band, unflagged and of sides in [20, 40], keeping the earlier entities and the registry invariant |
| Simulation.Game.AddTestBox | hellogosu.rb:124-128 | appends the unflagged 5 x 80 box at (400, 450) and adds one pin joint from its body to a static body outside the space |
| Simulation.Game.NewBall | hellogosu.rb:133-138 | registers the entity's body and shape, places it at the given position and appends it as the last entity; the earlier entities and the static lines stay the same; the registry invariant is kept |
| Simulation.Game.NewBox | hellogosu.rb:140-145 | the same registration and append as `new_ball` |
| Simulation.Game.NewStaticLine | hellogosu.rb:147-151 | registers only the segment's shape, not its body, appends the line and leaves the entities alone; the registry invariant is kept |
| Simulation.Game.CheckLiveness | hellogosu.rb:156-163 | every entity's flag is updated as `Entity.Update` states; the collected list holds exactly the entities flagged afterwards; the space loses exactly their bodies and shapes |
| Simulation.Game.Update | hellogosu.rb:153-166 | after step, checks and removal: every old entity's flag follows the liveness rule; the new `@objects` is exactly the unflagged old entities in their order, all with y <= 700; the count drops by the number flagged; a flagged entity's body and shape are no longer registered, and a survivor's still are; the static lines are untouched; when nothing falls out, the entities and the registry are unchanged; the registry invariant is kept |

## Left out

- Chipmunk dynamics: `Space.Step` may set any position and angle for each registered body.
  - Gravity and the timestep are stored but have no effect.
  - The pin joint is recorded but has no effect.
  - Moments of inertia (`CP.moment_for_circle`, `CP.moment_for_box`) are not computed.
- Mass, friction (`shape.u`) and moment_mod are not modelled. These are float parameters handed straight to the engine.
  - The mass and friction draws of the ball stream (`rand(0.1..0.2)`, `rand(0.5..0.7)`) are not drawn.
  - The box stream's `mass=rand(0.75..10.0)` is not drawn either. It is passed as the third positional argument, so in the code it lands in `color` and the boxes keep mass 2.
- Rendering is not modelled: the `draw` methods, images, colours, the grid, the window (`super`, `g.show`).
- The `puts` line of `update` (hellogosu.rb:165) is output only.
- `rand` is a nondeterministic choice, not a generator. The ball scale and the box sides are the only float draws kept, because they fix the radius and the size.
- Floats are reals: no rounding. `Math::PI` is the decimal 3.141592653589793.
- Chipmunk's own refusals are preconditions of the space operations. Adding a body or shape twice, or removing one that is not there, is not possible in the model. The Ruby code never calls them that way.
- `Game#initialize` is split into `AddObstacles`, `SpawnBalls`, `SpawnBoxes` and `AddTestBox`, in source order.
  - `AddObstacles` runs the five `new_static_line` calls as one loop over the table `OBSTACLES` of their endpoints.
  - Box positions are first (100, 100) and then the spawn position, as in the code.
- The loop of `Game#update` is its own method, `CheckLiveness`.
- `NewBox` calls `NewBall` instead of repeating the same four statements.
- Ball and Box are one class, tagged by `kind`. Their `update` and `delete?` are the same code in the source.
