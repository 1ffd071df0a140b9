# SolarSystem3D in Dafny

This project is a Dafny model of the core of SolarSystem3D, a JavaFX viewer of the solar system. The model covers five parts.

**The data model.** Every astronomical object is a star, planet, satellite or ring, with:
- immutable physical and orbital records, each made by its builder;
- a property list the information panel shows;
- a pane hierarchy that draws it. The inclination pane holds the translation pane, which holds the body's sphere or cylinder.

The solar-system model fills a name-to-body registry from the catalogue in a fixed order: the star, the planets, the satellites, the rings. It then makes the orbit of every satellite and then of every planet. Finally it hangs every body's panes under its central body.

**Orbit geometry and timing.** This covers:
- the orbit ellipse, from the aphelion and the perihelion, scaled and pushed out by the sizes of the bodies;
- the clearance a body leaves for its satellites;
- the duration and start offset of the orbital transition;
- the spin rate of a body.

**Animation handler.** The registry of every orbital transition and rotation timer. It supports start, pause (which saves each play head), unpause, stop and toggle.

**Camera controller.** Covers `SmartScene`, `StarSystemScene`, `RotationContext`, `TranslateContext`, `SmartPane` and `CoordinateHelper`:
- The camera pose is an affine transform, a 3×3 linear part plus a translation. Rotations and translations are appended to it.
- A free camera turns about the pivot point.
- A chase camera rides in the pane of the sphere it follows and turns about it.
- A translation that would take the camera farther than `MAX_ZOOM` from the origin is refused.
- Mouse clicks, drags, the scroll wheel and keys drive all of this.
- A click selects the nearest sphere under the mouse that lies inside the field of view.

**View registry.** `SolarSystemView` is a one-to-one registry from names to panes, kept in insertion order.

Modelling choices:
- Java doubles are Dafny reals. `Math.sqrt` is a parameter, and a property that needs it assumes only that it is exact at the argument.
- Bounding boxes are inputs, and so are `localToScene`, camera distances, view angles and rotation matrices. Each is a function field of a small "host" datatype. The core reads these values from JavaFX and never computes them itself.
- A Java `null` is `None` for values, or a nullable reference for objects.
- A thrown exception is a `Failure`/`Fail` result that the caller passes on.

## Model

| member | source | states |
|---|---|---|
| Geometry.AppendTranslation | src/main/java/util/SmartScene.java:403-405 | the linear part is kept; every point is sent to where the old pose sent it after moving it by d (the translation acts first, in the pose's own frame) |
| Geometry.AppendRotation | src/main/java/util/SmartScene.java:254-264 | the linear part is multiplied by the rotation; the pivot plus q goes where the old pose sent the pivot plus the rotated q |
| Geometry.Append | src/main/java/util/SmartScene.java:326-334 | the appended transform is applied first, then the pose |
| Geometry.RotationFixesPivot | src/main/java/util/SmartScene.java:254-264 | a rotation appended about a pivot leaves the pivot's image where it was |
| Geometry.TranslationUndone | src/main/java/util/SmartScene.java:288-294 | translating by d and then by -d restores the pose exactly |
| Geometry.AppendIdentity | src/main/java/util/SmartScene.java:332-333 | setToIdentity followed by append(t) leaves exactly t |
| CoordinateHelper.CenterOfBounds | src/main/java/util/CoordinateHelper.java:14-17 | null bounds give the origin; otherwise the result is equally far from the minimum and the maximum on each axis |
| CoordinateHelper.CenterOfBounds2D | src/main/java/util/CoordinateHelper.java:18-21 | the same on x and y, with null giving (0, 0) |
| CoordinateHelper.CenterOfBounds2DIsProjection | src/main/java/util/CoordinateHelper.java:14-21 | the 2D centre equals the x and y of the 3D centre |
| CoordinateHelper.CenterInsideBounds | src/main/java/util/CoordinateHelper.java:14-17 | for a box of non-negative extent, the centre lies inside it |
| SceneGraph.RemoveFirst | src/main/java/util/SmartPane.java:67-72 | List.remove(Object): the list is unchanged if x is absent; otherwise exactly one occurrence of x is gone |
| SceneGraph.RemoveFirstUndoesAppend | src/main/java/util/SmartPane.java:39-74 | removing a camera that was appended to a list without it gives back the original list |
| SceneGraph.Shape3D.constructor | src/main/java/datamodel/AstronomicalObject.java:351-401 | a shape holds its kind, radius, tilt, owner and parent pane, and starts unrotated |
| SceneGraph.SmartPane.constructor | src/main/java/util/SmartPane.java:8-13 | a new pane has no children and no transforms |
| SceneGraph.AddedOnce | src/main/java/util/SmartPane.java:42-49 | the element ends in the list; an element already present leaves the list unchanged, otherwise it is appended at the end |
| SceneGraph.SmartPane.AddCamera | src/main/java/util/SmartPane.java:39-50 | IndexOutOfBounds if there are no children; IllegalState if the first child is not a SmartSphere; otherwise the camera is appended unless it is already a child (AddedOnce) |
| SceneGraph.SmartPane.RemoveCamera | src/main/java/util/SmartPane.java:52-74 | the same two guards; otherwise the first occurrence of the camera is removed, and the children are unchanged if it is absent |
| Properties.Lookup | src/main/java/datamodel/AstronomicalObject.java:163-181 | Map.get: None exactly when the key is absent; otherwise a stored entry |
| Properties.Put | src/main/java/datamodel/AstronomicalObject.java:163-181 | LinkedHashMap.put: a new key is appended at the end; for an existing key the key list stays as it was |
| Properties.PutThenLookup | src/main/java/datamodel/AstronomicalObject.java:163-181 | after put, the key reads the new value and every other key reads as before |
| Properties.PutKeepsKeysUnique | src/main/java/datamodel/AstronomicalObject.java:163-181 | put keeps the keys distinct |
| Properties.PutAllFresh | src/main/java/datamodel/AstronomicalObject.java:163-181 | putAll of new, distinct keys appends them in order |
| Properties.UniqueKeysConcat | src/main/java/datamodel/AstronomicalObject.java:163-181 | two maps with disjoint, distinct keys concatenate to a map with distinct keys |
| Properties.DecimalString | src/main/java/datamodel/AstronomicalObject.java:176 | the decimal text of the counter is never empty, with at least two digits from 10 on |
| Properties.DecimalStringInjective | src/main/java/datamodel/AstronomicalObject.java:176 | different counters give different texts |
| Physical.PhysicalCharacteristics.GetProperties | src/main/java/datamodel/PhysicalCharacteristics.java:27-34 | radius, mass, rotationPeriod and axialTilt, in that order, each key once |
| Physical.Builder.constructor | src/main/java/datamodel/PhysicalCharacteristics.java:84-86 | the radius is fixed and the other fields start at zero |
| Physical.Builder.Mass | src/main/java/datamodel/PhysicalCharacteristics.java:96-99 | sets the mass only and returns the builder itself |
| Physical.Builder.RotationPeriod | src/main/java/datamodel/PhysicalCharacteristics.java:106-109 | sets the rotation period only and returns the builder itself |
| Physical.Builder.AxialTilt | src/main/java/datamodel/PhysicalCharacteristics.java:116-119 | sets the axial tilt only and returns the builder itself |
| Physical.Builder.Build | src/main/java/datamodel/PhysicalCharacteristics.java:127-143 | the record holds exactly what was set |
| Orbital.OrbitalCharacteristics.GetProperties | src/main/java/datamodel/OrbitalCharacteristics.java:64-77 | NullPointerException exactly when the central object is null; otherwise the central name and the nine fields in order, each key once |
| Orbital.Builder.constructor | src/main/java/datamodel/OrbitalCharacteristics.java:155-157 | the central object is fixed; numbers start at zero and the epoch at null |
| Orbital.Builder.Aphelion | src/main/java/datamodel/OrbitalCharacteristics.java:166-169 | changes only the aphelion and returns the builder itself |
| Orbital.Builder.Perihelion | src/main/java/datamodel/OrbitalCharacteristics.java:178-181 | changes only the perihelion |
| Orbital.Builder.SemiMajorAxis | src/main/java/datamodel/OrbitalCharacteristics.java:188-191 | changes only the semi-major axis |
| Orbital.Builder.OrbitalPeriod | src/main/java/datamodel/OrbitalCharacteristics.java:200-203 | changes only the orbital period |
| Orbital.Builder.AverageOrbitalSpeed | src/main/java/datamodel/OrbitalCharacteristics.java:210-213 | changes only the average speed |
| Orbital.Builder.Inclination | src/main/java/datamodel/OrbitalCharacteristics.java:220-223 | changes only the inclination |
| Orbital.Builder.LongitudeOfAscendingNode | src/main/java/datamodel/OrbitalCharacteristics.java:230-233 | changes only the longitude of the ascending node |
| Orbital.Builder.ArgumentOfPerihelion | src/main/java/datamodel/OrbitalCharacteristics.java:240-243 | changes only the argument of perihelion |
| Orbital.Builder.Epoch | src/main/java/datamodel/OrbitalCharacteristics.java:250-253 | changes only the epoch |
| Orbital.Builder.Build | src/main/java/datamodel/OrbitalCharacteristics.java:261-283 | the record holds every field exactly as set |
| OrbitGeometry.ScaleDistance | src/main/java/datamodel/AstronomicalObject.java:705-706 | scaled × SCALE_DISTANCE = value × AU |
| OrbitGeometry.ScaleDistanceMonotone | src/main/java/datamodel/AstronomicalObject.java:705-711 | scaling preserves order, so the aphelion check compares the catalogue values |
| OrbitGeometry.EllipticalOrbit | src/main/java/datamodel/AstronomicalObject.java:734-767 | centreY = 0; the far end of the major axis lies at the aphelion and the near end at minus the perihelion |
| OrbitGeometry.EllipticalOrbitFocus | src/main/java/datamodel/AstronomicalObject.java:744-752 | with an exact sqrt: semiMinor ≥ 0, semiMinor² = aphelion·perihelion, and the origin is a focus |
| OrbitGeometry.EllipticalOrbitInverted | src/main/java/datamodel/AstronomicalObject.java:777-784 | inversion negates the centre x only, so the far end lies at minus the aphelion |
| OrbitGeometry.OrbitEllipse | src/main/java/datamodel/AstronomicalObject.java:700-725 | IllegalArgument exactly when scaled aphelion < scaled perihelion; NullPointer when the central body is missing; otherwise both distances grow by half the parent's width plus half the cluster width |
| OrbitGeometry.ShiftCenter | src/main/java/datamodel/AstronomicalObject.java:625-626 | radii kept; the centre moves by exactly (dx, dy) |
| OrbitGeometry.OrbitRotations | src/main/java/datamodel/AstronomicalObject.java:431-464 | a rotation by minus the inclination about Y, then by the ascending node's longitude about Z |
| OrbitGeometry.OrbitDuration | src/main/java/datamodel/AstronomicalObject.java:617 | the cycle in scene seconds equals the period in days |
| OrbitGeometry.PerihelionOffset | src/main/java/datamodel/AstronomicalObject.java:472-483 | the offset is the same fraction of the cycle as the argument is of 360°, and lies within the cycle for 0..360 |
| OrbitGeometry.AngleForOneNano | src/main/java/datamodel/AstronomicalObject.java:884-889 | no finite rate exactly when the period is zero; otherwise rate × nanoseconds per (sped-up) period = 360 |
| OrbitGeometry.MaxFromIsMaximum | src/main/java/datamodel/AstronomicalObject.java:498-606 | the running maximum bounds the floor and every value, and equals one of them |
| OrbitGeometry.MaxFromSnoc | src/main/java/datamodel/AstronomicalObject.java:498-606 | one more loop step extends the running maximum by one Max |
| OrbitGeometry.RingSize | src/main/java/datamodel/AstronomicalObject.java:577-606 | the largest of width, height and depth |
| OrbitGeometry.XTranslationClearsSatellites | src/main/java/datamodel/AstronomicalObject.java:498-528 | with satellites, the x shift is at least (ownWidth/2 + w)/2 for every satellite value w, and equals it for the widest |
| OrbitGeometry.YTranslationClearsSatellites | src/main/java/datamodel/AstronomicalObject.java:529-576 | the same for heights, starting from ownHeight/2 |
| OrbitGeometry.ClusterSizeBounds | src/main/java/datamodel/AstronomicalObject.java:577-606 | the cluster box holds the body and each ring or orbit, and each side equals one of them |
| OrbitGeometry.CalculateXTranslation | src/main/java/datamodel/AstronomicalObject.java:498-528 | the loop computes the x shift: ownWidth/2 without satellites, else the mean of ownWidth/2 and the widest satellite |
| OrbitGeometry.CalculateYTranslation | src/main/java/datamodel/AstronomicalObject.java:529-576 | the loop computes the y shift: ownDepth/2 without satellites, else the mean of ownHeight/2 and the tallest satellite |
| OrbitGeometry.SizeWithSatellites | src/main/java/datamodel/AstronomicalObject.java:577-606 | the loop computes the cluster box |
| Animation.Transition.constructor | src/main/java/datamodel/AstronomicalObject.java:628-634 | the transition moves the node along the path, one cycle per duration, stopped at time 0 |
| Animation.Transition.JumpTo | src/main/java/datamodel/AstronomicalObject.java:472-483 | moves the play head to the given time, a negative time clamped to 0, and keeps the running state |
| Animation.Transition.Play | src/main/java/application/AnimationHandler.java:83-91 | runs from the current play head |
| Animation.Transition.PlayFrom | src/main/java/application/AnimationHandler.java:92-103 | runs from the given time, a negative time clamped to 0 |
| Animation.Transition.Stop | src/main/java/application/AnimationHandler.java:118-126 | halts; a running transition rewinds to 0, a stopped one keeps its play head |
| Animation.RotationTimer.constructor | src/main/java/datamodel/AstronomicalObject.java:891-892 | a timer for the node, with the rate and a remembered stamp of 0 |
| Animation.RotationTimer.Start | src/main/java/application/AnimationHandler.java:83-91 | active; stamp kept |
| Animation.RotationTimer.Stop | src/main/java/application/AnimationHandler.java:104-126 | inactive; stamp kept |
| Animation.RotationTimer.Handle | src/main/java/datamodel/AstronomicalObject.java:895-900 | the node turns by rate × (now − stamp) and the stamp becomes now |
| Animation.AfterTicksTelescopes | src/main/java/datamodel/AstronomicalObject.java:895-900 | after any run of frames, the total turn is rate × (last frame − first stamp) |
| Animation.AnimationHandler.constructor | src/main/java/application/AnimationHandler.java:42-43 | empty registries, not running |
| Animation.AnimationHandler.AddTransition | src/main/java/application/AnimationHandler.java:54-61 | a null or known transition is ignored; otherwise it is appended with its current play head |
| Animation.AnimationHandler.AddAnimationTimer | src/main/java/application/AnimationHandler.java:67-73 | a null or known timer is ignored; otherwise it is appended |
| Animation.AnimationHandler.StartTimers | src/main/java/application/AnimationHandler.java:83-91 | every timer active, stamps kept |
| Animation.AnimationHandler.StopTimers | src/main/java/application/AnimationHandler.java:104-126 | every timer inactive, stamps kept |
| Animation.AnimationHandler.Start | src/main/java/application/AnimationHandler.java:83-91 | every registered transition plays on from its own play head; every timer runs with its stamp kept; the registries and the saved play heads are unchanged; running |
| Animation.AnimationHandler.Unpause | src/main/java/application/AnimationHandler.java:92-103 | every transition plays from the play head saved in its slot, clamped to 0 if negative; every timer runs with its stamp kept; the registries and the saved play heads are unchanged; running |
| Animation.AnimationHandler.Pause | src/main/java/application/AnimationHandler.java:104-117 | each transition's play head is saved in its slot before it stops; a running one rewinds to 0, a stopped one keeps its play head; every timer stops with its stamp kept; the registries are unchanged; not running |
| Animation.AnimationHandler.Stop | src/main/java/application/AnimationHandler.java:118-126 | every transition stops; a running one rewinds to 0, a stopped one keeps its play head; every timer stops with its stamp kept; the registries and the saved play heads are unchanged; not running |
| Animation.AnimationHandler.Toggle | src/main/java/application/AnimationHandler.java:127-133 | when running, exactly what Pause leaves (play heads saved, everything stopped, only running transitions rewound); otherwise exactly what Unpause leaves (saved play heads, clamped to 0); the running flag flips and timer stamps are kept |
| Astronomical.PhysicsOf | src/main/java/datamodel/AstronomicalObject.java:191-202 | a body without physical data reads as all zeros |
| Astronomical.DelegateRadius | src/main/java/datamodel/Star.java:39-54 | the radius over SCALE_RADIUS, and for a star over SCALE_SOL_RADIUS as well |
| Astronomical.StarDrawnSmaller | src/main/java/datamodel/Star.java:39-54 | for the same radius, a star's sphere is 7 times smaller than a planet's |
| Astronomical.PrepareAnimation | src/main/java/datamodel/AstronomicalObject.java:884-903 | a fresh, stopped timer with the period's rate is appended to the handler's timers, and nothing else changes |
| Astronomical.CreateStarDelegate | src/main/java/datamodel/Star.java:30-65 | a sphere of the star-scaled radius with the star's tilt, and its timer registered |
| Astronomical.CreatePlanetDelegate | src/main/java/datamodel/Planet.java:34-59 | a sphere of the planet-scaled radius with the planet's tilt, and its timer registered |
| Astronomical.CreateBaseDelegate | src/main/java/datamodel/AstronomicalObject.java:795-831 | a cylinder 0.1 high for a ring, else a sphere, at the common scale, and its timer registered |
| Astronomical.CreateDelegate | src/main/java/datamodel/AstronomicalObject.java:351-401 | inclination pane ⊃ translation pane ⊃ shape; only a ring's shape is mouse-transparent |
| Astronomical.SatelliteKey | src/main/java/datamodel/AstronomicalObject.java:176 | a key of at least 12 characters beginning with 'S', a letter no base key begins with |
| Astronomical.SatelliteKeyInjective | src/main/java/datamodel/AstronomicalObject.java:176 | different counters give different keys |
| Astronomical.SatelliteEntries | src/main/java/datamodel/AstronomicalObject.java:173-178 | one entry per satellite, its name under its position |
| Astronomical.BaseKeysLowerCase | src/main/java/datamodel/AstronomicalObject.java:163-172 | the name, physical and orbit keys are distinct, and none of them starts with 'S' |
| Astronomical.BaseByPuts | src/main/java/datamodel/AstronomicalObject.java:163-172 | the successive puts list the name, the physical entries and the orbit entries in order |
| Astronomical.PutSatellite | src/main/java/datamodel/AstronomicalObject.java:173-178 | putting the i-th satellite appends its entry and keeps the keys distinct |
| Astronomical.PutSatellites | src/main/java/datamodel/AstronomicalObject.java:173-178 | the loop over the satellites appends one entry per satellite, in order, and keeps the keys distinct |
| Astronomical.AstronomicalObject.constructor | src/main/java/datamodel/AstronomicalObject.java:149-162 | the fields are as given; no satellites and no orbit pane; fresh delegate panes with the shape |
| Astronomical.AstronomicalObject.AddSatellite | src/main/java/datamodel/AstronomicalObject.java:243-253 | the satellite is appended at the end |
| Astronomical.AstronomicalObject.GetProperties | src/main/java/datamodel/AstronomicalObject.java:163-181 | NullPointer exactly for an orbit without a central body; otherwise the name, physical, orbit and satellite entries in order, each key once |
| Astronomical.AstronomicalObject.CentralWidth | src/main/java/datamodel/AstronomicalObject.java:718-719 | None exactly when the central body is missing; otherwise its delegate's width |
| Astronomical.AstronomicalObject.OrbitPath | src/main/java/datamodel/AstronomicalObject.java:700-725 | IllegalArgument exactly when aphelion < perihelion; NullPointer exactly for a missing central body otherwise |
| Astronomical.AstronomicalObject.CreateEllipticalOrbit | src/main/java/datamodel/AstronomicalObject.java:700-725 | the loops and the ellipse computation give OrbitPath |
| Astronomical.AstronomicalObject.ApplyOrbitalTransition | src/main/java/datamodel/AstronomicalObject.java:613-639 | a fresh transition on the translation pane: the path is shifted by the clearance, the duration is the period, the play head is at the perihelion offset (clamped to 0 when negative), stopped, and the transition is registered with its play head |
| Astronomical.AstronomicalObject.ApplyOrbitRotations | src/main/java/datamodel/AstronomicalObject.java:431-464 | both panes receive the two orbit rotations; nothing else changes |
| Astronomical.AstronomicalObject.DrawOrbit | src/main/java/datamodel/AstronomicalObject.java:307-319 | the ellipse goes into the orbit pane (stroke hidden for a satellite), the transition is registered, and both panes are rotated |
| Astronomical.AstronomicalObject.CreateOrbitalDelegate | src/main/java/datamodel/AstronomicalObject.java:296-320 | IllegalState if the orbit pane already exists; nothing without an orbit path; otherwise a mouse-transparent orbit pane is drawn, and a failing ellipse leaves the pane set and returns the exception |
| Astronomical.AstronomicalObject.HierarchyPanes | src/main/java/datamodel/AstronomicalObject.java:343-346 | the inclination pane, then the orbit pane when there is one |
| Astronomical.AstronomicalObject.BuildHierarchy | src/main/java/datamodel/AstronomicalObject.java:322-348 | nothing without an orbit; NullPointer without a central body; otherwise the panes are appended to the central body's translation pane |
| Catalog.SolarSystemModel.constructor | src/main/java/datamodel/SolarSystemModel.java:28 | an empty model sharing the animation handler |
| Catalog.SolarSystemModel.ReadPhysicalCharacteristics | src/main/java/datamodel/SolarSystemModel.java:153-160 | the record copies the entry's four values |
| Catalog.SolarSystemModel.ReadOrbitCharacteristics | src/main/java/datamodel/SolarSystemModel.java:167-181 | NullPointer exactly for a missing orbit; otherwise the central body is looked up by name and the fields are copied |
| Catalog.SolarSystemModel.Register | src/main/java/datamodel/SolarSystemModel.java:97 | the body is stored under its name |
| Catalog.SolarSystemModel.CreateStar | src/main/java/datamodel/SolarSystemModel.java:94-98 | a fresh star without an orbit, stored under its name |
| Catalog.SolarSystemModel.CreatePlanet | src/main/java/datamodel/SolarSystemModel.java:141-146 | NullPointer with no change for an entry without an orbit; otherwise a fresh planet of the entry's name, whose central object is the body stored under the entry's central name, is stored under its name |
| Catalog.SolarSystemModel.CreateAstronomicalObject | src/main/java/datamodel/SolarSystemModel.java:116-123 | NullPointer with nothing made for a missing orbit; otherwise a fresh body of the given type, whose central object is the body stored under the entry's central name, is stored under its name; then NullPointer exactly when that name is unknown, else the body is appended to the satellites of the body stored under the central name after the store; every other satellites list and every orbit pane is unchanged |
| Catalog.SolarSystemModel.CreatePlanets | src/main/java/datamodel/SolarSystemModel.java:130-135 | passes exactly when every entry has an orbit; the planets made are fresh, one per entry up to the first failure, in entry order, and stored under their names one after the other; no satellites list changes |
| Catalog.SolarSystemModel.CreateAstronomicalObjects | src/main/java/datamodel/SolarSystemModel.java:105-110 | the entries in order, up to the first NullPointer: one fresh body per entry, stored under its name one after the other; every body's satellites are its old list followed by the new bodies that joined it, in entry order; on success every entry had a central body |
| Catalog.SolarSystemModel.GetAstronomicalObjects | src/main/java/datamodel/SolarSystemModel.java:215-221 | every stored body exactly once |
| Catalog.SolarSystemModel.ObjectsOfKind | src/main/java/datamodel/SolarSystemModel.java:200-208 | exactly the stored bodies of one type, each once |
| Catalog.SolarSystemModel.GetPlanets | src/main/java/datamodel/SolarSystemModel.java:200-208 | exactly the planets, each once |
| Catalog.SolarSystemModel.GetSatellites | src/main/java/datamodel/SolarSystemModel.java:258-266 | exactly the satellites, each once; rings excluded |
| Catalog.SolarSystemModel.GetStar | src/main/java/datamodel/SolarSystemModel.java:188-193 | a stored star, or null exactly when there is none |
| Catalog.SolarSystemModel.GetObject | src/main/java/datamodel/SolarSystemModel.java:229-231 | the body of that name, null exactly when the name is unknown |
| Catalog.SolarSystemModel.GetProperties | src/main/java/datamodel/SolarSystemModel.java:239-241 | NullPointer for an unknown name; otherwise NullPointer exactly for an orbit without a central body, and on success exactly the body's own property list: the name, physical and orbit entries, then one entry per satellite, with distinct keys |
| Catalog.SolarSystemModel.GetObjectNames | src/main/java/datamodel/SolarSystemModel.java:248-255 | a fresh array holding every name exactly once |
| Catalog.NameListCoversKeys | src/main/java/datamodel/SolarSystemModel.java:248-255 | listing every stored body once lists every key once, and nothing else |
| Catalog.SolarSystemModel.GetVisualDelegates | src/main/java/datamodel/SolarSystemModel.java:270-277 | exactly the sphere shapes of the stored bodies; ring cylinders excluded |
| Catalog.CreateOrbitOf | src/main/java/datamodel/SolarSystemModel.java:80-87 | IllegalState for a body that already has an orbit pane; on success the orbit pane exists exactly when the body has an orbit path |
| Catalog.CreateOrbitsOf | src/main/java/datamodel/SolarSystemModel.java:80-87 | the loop over distinct bodies: the handler stays consistent, satellite lists are untouched, and on success every listed body had no orbit pane before and has one exactly when it has an orbit path |
| Catalog.SolarSystemModel.CreateOrbits | src/main/java/datamodel/SolarSystemModel.java:80-87 | exactly the satellites and planets are visited, satellites first; no other body changes; on success each has an orbit pane exactly when it has an orbit path |
| Catalog.AttachToCentral | src/main/java/datamodel/SolarSystemModel.java:73-77 | one step of the loop: NullPointer when body i has an orbit without a central body; otherwise body i and every body before it hang under their central bodies; translation panes keep the children they started with in front |
| Catalog.AttachAll | src/main/java/datamodel/SolarSystemModel.java:73-77 | the loop: a failure names a body whose orbit has no central body; on success every listed body has its central body and hangs under it; translation panes keep their starting children in front |
| Catalog.SolarSystemModel.BuildHierarchy | src/main/java/datamodel/SolarSystemModel.java:73-77 | on success every orbit has a central body and every body hangs under it; a failure is a NullPointer and some stored body has an orbit without a central body; translation panes are only appended to |
| Catalog.StoredAfterAppend | src/main/java/datamodel/SolarSystemModel.java:120 | storing two runs of bodies one after the other leaves the same name map as storing them all in order |
| Catalog.JoinedToAppend | src/main/java/datamodel/SolarSystemModel.java:120-122 | the bodies that join a body over two runs are those of the first run followed by those of the second, looked up in the map the first run left |
| Catalog.JoinedToStranger | src/main/java/datamodel/SolarSystemModel.java:121-122 | a body that is neither stored nor made is joined by nothing |
| Catalog.JoinedToNone | src/main/java/datamodel/SolarSystemModel.java:141-146 | storing planets joins nothing to any body: planets are not added to satellites lists |
| Catalog.MadeFromAppend | src/main/java/datamodel/SolarSystemModel.java:55-62 | bodies made from consecutive runs of the catalogue are made from the catalogue |
| Catalog.CatalogueNames | src/main/java/datamodel/SolarSystemModel.java:55-62 | when one body was made per catalogue entry, the star's name and every planet, satellite and ring name is stored |
| Catalog.SolarSystemModel.CreateObjects | src/main/java/datamodel/SolarSystemModel.java:55-62 | star, planets, satellites, rings: the bodies are exactly those made, each from the catalogue entry at its position and of that entry's type; the name map is what storing them in order leaves; each body's satellites are the satellites and rings that joined it, in catalogue order; on success one body per entry and every catalogue name is stored |
| Catalog.SolarSystemModel.Load | src/main/java/datamodel/SolarSystemModel.java:44-71 | the bodies, names and satellites lists as CreateObjects states them, kept through the scene set-up; on success every name is stored, satellites and planets have an orbit pane exactly when they have an orbit path, the star and rings have none, and every body hangs under its central body |
| Rotation.RotationContext.constructor | src/main/java/util/RotationContext.java:18-30 | all angles and the pivot are zero; no pivot sphere |
| Rotation.RotationContext.SetAngle | src/main/java/util/RotationContext.java:36-40 | sets all three angles; the pivot is untouched |
| Rotation.RotationContext.SetAngleX | src/main/java/util/RotationContext.java:42-44 | sets only angle X |
| Rotation.RotationContext.SetAngleY | src/main/java/util/RotationContext.java:46-48 | sets only angle Y |
| Rotation.RotationContext.SetAngleZ | src/main/java/util/RotationContext.java:50-52 | sets only angle Z |
| Rotation.RotationContext.SetPivotCoordinates | src/main/java/util/RotationContext.java:85-89 | stores exactly those coordinates; the sphere is kept |
| Rotation.RotationContext.SetPivotPoint | src/main/java/util/RotationContext.java:96-102 | the point's coordinates, or the origin for null |
| Rotation.RotationContext.SetPivotSphere | src/main/java/util/RotationContext.java:109-129 | the sphere becomes the pivot; the coordinates become the centre of its scene bounds, or the origin for null |
| Rotation.RotationContext.Pivot | src/main/java/util/RotationContext.java:131-150 | with a sphere, the live centre of its scene bounds; otherwise the stored point |
| Rotation.RotationContext.PivotX | src/main/java/util/RotationContext.java:156-161 | agrees with the x of getPivot |
| Rotation.RotationContext.PivotY | src/main/java/util/RotationContext.java:163-168 | agrees with the y of getPivot |
| Rotation.RotationContext.PivotZ | src/main/java/util/RotationContext.java:170-175 | agrees with the z of getPivot |
| Rotation.StoredPivotIsLivePivot | src/main/java/util/RotationContext.java:109-150 | while the sphere has not moved since setPivot, the live pivot equals the stored one |
| Translation.TranslateContext.constructor | src/main/java/util/TranslateContext.java:17-22 | all anchors start at zero |
| Translation.TranslateContext.SetMouseAnchorX | src/main/java/util/TranslateContext.java:27-29 | only that anchor changes |
| Translation.TranslateContext.SetMouseAnchorY | src/main/java/util/TranslateContext.java:33-35 | only that anchor changes |
| Translation.TranslateContext.SetMouseAnchor | src/main/java/util/TranslateContext.java:40-43 | both mouse anchors change; the translate anchors are untouched |
| Translation.TranslateContext.SetMouseAnchorPoint | src/main/java/util/TranslateContext.java:36-39 | the same, from a point |
| Translation.TranslateContext.SetTranslateAnchorX | src/main/java/util/TranslateContext.java:48-50 | only that anchor changes |
| Translation.TranslateContext.SetTranslateAnchorY | src/main/java/util/TranslateContext.java:54-56 | only that anchor changes |
| Translation.TranslateContext.SetTranslateAnchorZ | src/main/java/util/TranslateContext.java:60-62 | only that anchor changes |
| Translation.TranslateContext.SetTranslateAnchorPoint | src/main/java/util/TranslateContext.java:63-67 | x and y from the point and z = 0; mouse anchors untouched |
| Translation.TranslateContext.SetTranslateAnchor | src/main/java/util/TranslateContext.java:68-72 | all three translate anchors; mouse anchors untouched |
| CameraControl.AxisTurn | src/main/java/util/SmartScene.java:254-264 | a zero angle contributes no rotation |
| CameraControl.TurnedByNothing | src/main/java/util/SmartScene.java:254-264 | rotate with three zero angles keeps the orientation |
| CameraControl.PoseDeterminedByPoint | src/main/java/util/SmartScene.java:288-294 | two poses with the same linear part that agree on one point are equal |
| CameraControl.ScrollDelta | src/main/java/util/SmartScene.java:459-473 | deltaY·25; with shift deltaX·5; with ctrl deltaY·0.2, and ctrl wins |
| CameraControl.KeyTurn | src/main/java/util/SmartScene.java:572-597 | no turn exactly for other keys; otherwise ±10 about exactly one axis |
| CameraControl.SmartScene.constructor | src/main/java/util/SmartScene.java:45-80 | free camera at the identity pose, no pivot sphere, no borders, preferred size |
| CameraControl.SmartScene.Rotate | src/main/java/util/SmartScene.java:254-264 | the orientation gains the X, Y and Z turns in that order (none for zero angles); the pivot's image stays fixed |
| CameraControl.SmartScene.FreeCamRotate | src/main/java/util/SmartScene.java:274-276 | turns by (−dY·0.1, dX·0.1, dZ·0.1) about p; p's image stays fixed |
| CameraControl.SmartScene.ChaseCamRotate | src/main/java/util/SmartScene.java:288-294 | the same orientation change; the point at the camera's distance to p, straight ahead, stays fixed, so the camera circles it |
| CameraControl.SmartScene.CameraRotate | src/main/java/util/SmartScene.java:304-317 | free or chase rotation by mode: the orientation turns by (dX, dY, dZ), a free camera keeps the pivot's image and a chase camera the point ahead at its distance (TurnCentreKept); the mode is kept |
| CameraControl.SmartScene.CheckClipDistance | src/main/java/util/SmartScene.java:383-393 | true exactly when the translated camera origin is within MAX_ZOOM of the scene origin |
| CameraControl.SmartScene.TranslateNoConstraint | src/main/java/util/SmartScene.java:403-405 | the translation is appended unchecked |
| CameraControl.SmartScene.Translate | src/main/java/util/SmartScene.java:415-419 | commits exactly when the result stays within the sky box, else keeps the pose; a pose inside the sky box stays inside |
| CameraControl.SmartScene.Zoom | src/main/java/util/SmartScene.java:428-430 | translate(0, 0, delta), with the same clamp |
| CameraControl.SmartScene.OnScroll | src/main/java/util/SmartScene.java:459-473 | a zoom by the scroll delta |
| CameraControl.SmartScene.InitCameraPosition | src/main/java/util/SmartScene.java:205-213 | the orientation of turns by −800 and then 1800 about the origin, starting from the identity; the mode is kept |
| CameraControl.SmartScene.InitChaseCameraPosition | src/main/java/util/SmartScene.java:225-230 | the orientation of a turn by 100/0.1 about the pivot, starting from the identity; the mode is kept |
| CameraControl.SmartScene.RemoveChaseCam | src/main/java/util/SmartScene.java:326-334 | nothing without a pivot sphere; otherwise the camera leaves the sphere's pane and the pose becomes its old scene transform; the pane's guards fail with the pose kept |
| CameraControl.SmartScene.SetChaseCam | src/main/java/util/SmartScene.java:336-340 | IndexOutOfBounds for an empty pane, IllegalState when its first child is not a sphere; otherwise the pane's children become the old list with the camera appended once |
| CameraControl.SmartScene.OnMouseClicked | src/main/java/util/SmartScene.java:438-447 | no-op when already chasing that sphere; otherwise chase mode; a failed removal from the old pivot's pane keeps the pose, the pane and the pivot; on success the camera has left the old pivot's pane (its first occurrence removed) and been added once to the sphere's pane, the sphere becomes the pivot at its centre, and the chase orientation is set |
| CameraControl.SmartScene.OnMousePressed | src/main/java/util/SmartScene.java:484-489 | the mouse anchor is the press point |
| CameraControl.SmartScene.OnMouseDragged | src/main/java/util/SmartScene.java:502-552 | primary: angles from the anchors, and a turn by (dX, dY) about the pivot (free) or the point ahead (chase) when it is the only button; secondary: a chase camera becomes free without a pivot sphere, then the clamped translation by (−dX, −dY); both restart the anchor; no button changes nothing |
| CameraControl.SmartScene.PrimaryDrag | src/main/java/util/SmartScene.java:524-529 | the angles are the anchor angles moved by (−dY, dX); the orientation turns by (dX, dY) and the pivot's image (free) or the point ahead (chase) stays in place; the anchor restarts at the mouse; mode and pivot are kept |
| CameraControl.SmartScene.SecondaryDrag | src/main/java/util/SmartScene.java:541-551 | a chase camera leaves its sphere and becomes free without a pivot sphere, its pose replaced by its scene transform; then the clamped translation by (−dX, −dY); the anchor restarts; angles untouched; a failing removal changes no pose |
| CameraControl.SmartScene.OnKeyPressed | src/main/java/util/SmartScene.java:572-597 | W/S, Q/E and A/D turn by ±10 about one axis, keeping the pivot's image (free) or the point ahead (chase) in place; other keys change nothing |
| StarSystem.Center | src/main/java/application/StarSystemScene.java:136-154 | nothing unless both stage sizes are > 0; borders are measured only while still 0, and the minimum size is updated with them; the scene becomes the stage size less the borders |
| StarSystem.SelectionUnique | src/main/java/application/StarSystemScene.java:195-201 | at most one delegate meets the selection rule |
| StarSystem.TraverseNodes | src/main/java/application/StarSystemScene.java:163-233 | null exactly when no sphere is in the field of view with the point inside its screen bounds (inclusive); otherwise the nearest such sphere, the earliest on a tie |
| View.ChainHit | src/main/java/util/SolarSystemView.java:55-61 | a failure of the first-child walk is always IndexOutOfBounds |
| View.WalkChain | src/main/java/util/SolarSystemView.java:55-61 | the loop follows first children until it finds the node, leaves the panes, or finds a pane without children |
| View.SolarSystemView.constructor | src/main/java/util/SolarSystemView.java:15 | an empty registry |
| View.SolarSystemView.GetObject | src/main/java/util/SolarSystemView.java:18-23 | NullPointer exactly for a null or empty name; otherwise the registered pane, or null exactly when the name is unknown |
| View.SolarSystemView.Put | src/main/java/util/SolarSystemView.java:67-90 | NullPointer for a null or empty key or a null pane; no change for a known key or an already-registered pane; otherwise inserted at the end; names stay unique and the map one-to-one |
| View.SolarSystemView.Elements | src/main/java/util/SolarSystemView.java:26-30 | the entries in insertion order, with values equal to the registry's |
| View.SolarSystemView.GetNames | src/main/java/util/SolarSystemView.java:33-40 | a fresh array of the names in insertion order, of length size() |
| View.SolarSystemView.NamesCountEntries | src/main/java/util/SolarSystemView.java:34 | size() equals the number of names |
| View.SolarSystemView.GetName | src/main/java/util/SolarSystemView.java:43-64 | NullPointer for null; otherwise the answer is exactly Search over the entries in insertion order |
| View.SolarSystemView.SearchFound | src/main/java/util/SolarSystemView.java:48-63 | a name the search answers is registered and its pane is the node or its first-child chain reaches it; no name means no pane is the node and no chain reaches it |
| View.SolarSystemView.SearchRaises | src/main/java/util/SolarSystemView.java:55-56 | the search raises only when the chain walk of some entry runs into a pane without children |
| View.SolarSystemView.FirstPaneWins | src/main/java/util/SolarSystemView.java:50-53 | the first entry whose pane is the node, reached with no walk raising before it, is the answer, whatever chain matched earlier |
| View.SolarSystemView.LastChainMatchWins | src/main/java/util/SolarSystemView.java:55-61 | with no pane equal to the node and no walk raising, the answer is the LAST entry whose chain reaches the node |
| View.SolarSystemView.FirstFailureRaises | src/main/java/util/SolarSystemView.java:55-56 | a walk that runs into a pane without children, before any entry whose pane is the node, makes the search raise IndexOutOfBounds |
| View.SolarSystemView.SearchMisses | src/main/java/util/SolarSystemView.java:62-63 | when no later pane is the node and no later chain reaches it, the search answers the match it already remembered |
| View.DistinctCount | src/main/java/util/SolarSystemView.java:34-38 | distinct names fill exactly as many array slots as there are names |

## Left out

- JSON parsing and resource I/O: the catalogue arrives as already-parsed records (`SystemRecord`). The constructor's catch-all becomes the `Fail` result of `Load`, which leaves the model as far as it got.
- Textures, materials, lights, the sky box, background images, mesh loading and the space ship: these are rendering, not logic.
- `applyAxialTilt`: the sin/cos tilt transform is library trigonometry. Only the tilt value stored on the shape is modelled.
- JavaFX internals are inputs: `PathTransition` interpolation, the rotation matrices of `appendRotation`, `localToScene`/`localToScreen`, `Point3D.angle` and `distance`, and bounds.
- Floating-point rounding and infinities: doubles are reals. `checkClipDistance` compares squared distances, which is equivalent for reals.
- `String.valueOf(double)` formatting: numbers in property maps are kept as numbers.
- HashMap iteration order in `SolarSystemModel`: the model picks an arbitrary order.
- `getVisualDelegate`'s walk to the shape: each body keeps its shape as a field.
- The camera's own transform list and its JavaFX parent are not modelled. `removeCamera` is given the scene's camera; JavaFX silently re-parenting a node added to a second pane is not modelled.
- `SmartScene.setChaseCam`'s IllegalStateException for a parent that is not a `SmartPane` cannot arise: every shape's parent is a `SmartPane` here.
- The angle and pivot `DoubleProperty` accessors, the `rotateX/Y/Z` accessors, `setScale`/`getScale`, `getWindow`, the `SmartScene.setPivot` one-line delegations and `initCamera`: these are plain accessors or JavaFX setup.
- `Debug` output, `traverseChildren`, `println` logging, `StarSystemScene.init`/`initListener`/`createCelestial`/`createSpaceShip`: plumbing and UI.
- The duplicate-key search in `SolarSystemView.put`, which only feeds a log message.
- The synchronized lazy creation of the satellite list: the list is created eagerly, and an empty list plays the role of Java's null list.
- CameraControl.SmartScene.InitChaseCameraPosition: states the orientation only, not where the final zoom leaves the camera. The zoom clamp depends on the live pivot position.
- CameraControl.SmartScene.InitCameraPosition: states the orientation only, for the same reason.
- CameraControl.SmartScene.OnMouseDragged: with both buttons down, the orientation after the secondary half is not restated. Each half is stated by PrimaryDrag and SecondaryDrag.
- View.SolarSystemView.GetName: the walk needs the scene graph to be a tree. This is given as a ranking of the panes, which JavaFX guarantees and the model takes as a precondition. The answer itself is stated in full, by Search.
- A body with a zero rotation period has no finite spin rate. Its timer leaves the rotation unchanged, where Java would write infinity or NaN.
- Animation.Transition.JumpTo: JavaFX reports the play head within the current cycle, while the model keeps the time as given. The two differ only for a time past one cycle, i.e. an argument of perihelion of 360° or more.
