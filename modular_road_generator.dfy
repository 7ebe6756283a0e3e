/** The snap-point road generator (`SimpleMapGenerator`): starting from a
    temporary "StartSnap" at ground level under the generator, it places up
    to `maxSegments` pieces; it stops right after a turn. Each piece is
    turned like the previous exit and put at that exit, less its entry
    offset turned by the prefab's own root rotation, plus a pivot offset,
    flattened onto the ground plane. When the prefab's root rotation is the
    exit's rotation and there is no pivot offset, its entry meets the exit
    across the ground; without a pivot offset it meets it exactly when the
    two rotations turn the entry offset alike (`EntryMeetsCursor`).

    Vectors are concrete, but rotating a vector and composing two rotations
    are the engine's business and are taken as the given `Geometry`. */
module ModularRoad {
  import opened Engine
  import opened Road

  /** A named child transform of a prefab, relative to the prefab's root. */
  datatype SnapPoint = SnapPoint(localPosition: Vec3, localRotation: Quaternion)

  /** A segment prefab: the rotation of its root and the children that
      `Transform.Find("SnapPoint")`, `Find("SnapPointEntry")` and
      `Find("SnapPointExit")` would return. */
  datatype SnapPrefab = SnapPrefab(rotation: Quaternion, snapPoint: Option<SnapPoint>,
                                   snapPointEntry: Option<SnapPoint>, snapPointExit: Option<SnapPoint>)

  /** The transform `lastSnap` refers to: a world position and rotation, and
      whether it is the temporary "StartSnap" object. */
  datatype Snap = Snap(position: Vec3, rotation: Quaternion, isStart: bool)

  /** A spawned piece: its kind, its index in that kind's prefab list, and
      the world position and rotation it was instantiated with. */
  datatype Placed = Placed(kind: Kind, template: nat, position: Vec3, rotation: Quaternion)

  /** The two warnings the generator logs. */
  datatype Warning = TurnMissingSnapPoints | StraightMissingSnapPoint

  /** The generator's inspector settings and the engine's rotation maths. */
  datatype Settings = Settings(straightPrefabs: seq<SnapPrefab>, turnPrefabs: seq<SnapPrefab>,
                               groundY: real, turnChance: real, pivotOffset: Vec3,
                               geometry: Geometry)

  /** The state of one generation run: the pieces spawned, the cursor, the
      number of random draws used and the warnings logged. */
  datatype Chain = Chain(pieces: seq<Placed>, lastSnap: Snap, drawn: nat, warnings: seq<Warning>)

  /** The snap point a piece of this kind enters by. */
  function EntryOf(kind: Kind, prefab: SnapPrefab): Option<SnapPoint>
  {
    if kind == Straight then prefab.snapPoint else prefab.snapPointEntry
  }

  /** The snap point a piece of this kind is left by: a straight piece has
      only the one. */
  function ExitOf(kind: Kind, prefab: SnapPrefab): Option<SnapPoint>
  {
    if kind == Straight then prefab.snapPoint else prefab.snapPointExit
  }

  /** Where a prefab is put to align its entry with `at`: the entry offset,
      turned by the prefab's own root rotation, is taken off the cursor, the
      pivot offset added, and the height forced to the ground level. The
      piece is turned like the cursor, so when the prefab's root rotation is
      the cursor's rotation its entry ends up at the cursor moved by the
      pivot offset across the ground. */
  function Landing(at: Snap, prefab: SnapPrefab, entry: SnapPoint, s: Settings): (position: Vec3)
    ensures position.y == s.groundY
    ensures prefab.rotation == at.rotation ==>
      var world := position.Plus(s.geometry.rotate(at.rotation, entry.localPosition));
      world.x == at.position.x + s.pivotOffset.x && world.z == at.position.z + s.pivotOffset.z
  {
    var aligned := at.position.Minus(s.geometry.rotate(prefab.rotation, entry.localPosition)).Plus(s.pivotOffset);
    aligned.(y := s.groundY)
  }

  /** The world transform of the exit snap point of an instance placed at
      `position` with `rotation` (`obj.transform.Find(exitSnap.name)`). */
  function ExitSnap(position: Vec3, rotation: Quaternion, exit: SnapPoint, s: Settings): (snap: Snap)
    ensures snap.position.Minus(position) == s.geometry.rotate(rotation, exit.localPosition)
    ensures snap.rotation == s.geometry.compose(rotation, exit.localRotation)
    ensures !snap.isStart
  {
    Snap(position.Plus(s.geometry.rotate(rotation, exit.localPosition)),
         s.geometry.compose(rotation, exit.localRotation), false)
  }

  /** Spawns one piece at the cursor and moves the cursor to its exit;
      draws and warnings are untouched. */
  function Place(c: Chain, kind: Kind, template: nat, prefab: SnapPrefab, entry: SnapPoint, exit: SnapPoint,
                 s: Settings): (r: Chain)
    ensures |r.pieces| == |c.pieces| + 1 && r.pieces[..|c.pieces|] == c.pieces
    ensures var last := r.pieces[|c.pieces|];
      && last.kind == kind && last.template == template
      && last.rotation == c.lastSnap.rotation && last.position.y == s.groundY
      && r.lastSnap == ExitSnap(last.position, last.rotation, exit, s)
    ensures !r.lastSnap.isStart
    ensures r.drawn == c.drawn && r.warnings == c.warnings
  {
    var position := Landing(c.lastSnap, prefab, entry, s);
    var rotation := c.lastSnap.rotation;
    c.(pieces := c.pieces + [Placed(kind, template, position, rotation)],
       lastSnap := ExitSnap(position, rotation, exit, s))
  }

  /** How one iteration of the loop ends: the loop goes on, or it is left
      (`break`); either way with the new `state`. */
  datatype Iteration = Go(state: Chain) | Halt(state: Chain)

  /** The iteration from `c` can index the list its coin picks: the source
      throws when the coin comes up straight and the straight list is empty. */
  ghost predicate Feasible(c: Chain, s: Settings, source: nat -> Unit)
  {
    |s.straightPrefabs| > 0 || (|s.turnPrefabs| > 0 && source(c.drawn) < s.turnChance)
  }

  /** One iteration of the loop of `GenerateMap`. It draws the turn coin
      (only when there are turn prefabs), then a template index. A turn
      without both snap points is logged and leaves the loop; a straight
      without its snap point is logged and only ends this iteration
      (`continue`); a placed turn leaves the loop. */
  function Iterate(c: Chain, s: Settings, source: nat -> Unit): (r: Iteration)
    requires Feasible(c, s, source)
    ensures r.Halt? <==> |s.turnPrefabs| > 0 && source(c.drawn) < s.turnChance
    ensures r.Go? ==> |s.straightPrefabs| > 0
    ensures r.state.drawn == c.drawn + (if |s.turnPrefabs| > 0 then 2 else 1)
  {
    var spawnTurn := |s.turnPrefabs| > 0 && source(c.drawn) < s.turnChance;
    var at := if |s.turnPrefabs| > 0 then c.drawn + 1 else c.drawn;
    if spawnTurn then
      var k := RangeInt(0, |s.turnPrefabs|, source(at));
      var prefab := s.turnPrefabs[k];
      if prefab.snapPointEntry.None? || prefab.snapPointExit.None? then
        Halt(c.(drawn := at + 1, warnings := c.warnings + [TurnMissingSnapPoints]))
      else
        Halt(Place(c.(drawn := at + 1), Turn, k, prefab, prefab.snapPointEntry.value, prefab.snapPointExit.value, s))
    else
      var k := RangeInt(0, |s.straightPrefabs|, source(at));
      var prefab := s.straightPrefabs[k];
      if prefab.snapPoint.None? then
        Go(c.(drawn := at + 1, warnings := c.warnings + [StraightMissingSnapPoint]))
      else
        Go(Place(c.(drawn := at + 1), Straight, k, prefab, prefab.snapPoint.value, prefab.snapPoint.value, s))
  }

  /** The prefab list pieces of this kind are copied from. */
  function PrefabsOf(kind: Kind, s: Settings): seq<SnapPrefab>
  {
    if kind == Turn then s.turnPrefabs else s.straightPrefabs
  }

  /** One iteration spelled out for a given coin outcome and template draw
      when the template has the snap points its kind needs. */
  lemma IterationPlaces(c: Chain, s: Settings, source: nat -> Unit, kind: Kind, k: nat, at: nat)
    requires (kind == Turn) == (|s.turnPrefabs| > 0 && source(c.drawn) < s.turnChance)
    requires at == if |s.turnPrefabs| > 0 then c.drawn + 1 else c.drawn
    requires k == RangeInt(0, |PrefabsOf(kind, s)|, source(at))
    requires k < |PrefabsOf(kind, s)|
    requires EntryOf(kind, PrefabsOf(kind, s)[k]).Some? && ExitOf(kind, PrefabsOf(kind, s)[k]).Some?
    ensures var prefab := PrefabsOf(kind, s)[k];
      var placed := Place(c.(drawn := at + 1), kind, k, prefab, EntryOf(kind, prefab).value, ExitOf(kind, prefab).value, s);
      Iterate(c, s, source) == if kind == Turn then Halt(placed) else Go(placed)
  {
  }

  /** One iteration spelled out for a given coin outcome and template draw
      when the template lacks a snap point its kind needs. */
  lemma IterationWarns(c: Chain, s: Settings, source: nat -> Unit, kind: Kind, k: nat, at: nat)
    requires (kind == Turn) == (|s.turnPrefabs| > 0 && source(c.drawn) < s.turnChance)
    requires at == if |s.turnPrefabs| > 0 then c.drawn + 1 else c.drawn
    requires k == RangeInt(0, |PrefabsOf(kind, s)|, source(at))
    requires k < |PrefabsOf(kind, s)|
    requires EntryOf(kind, PrefabsOf(kind, s)[k]).None? || ExitOf(kind, PrefabsOf(kind, s)[k]).None?
    ensures var warning := if kind == Turn then TurnMissingSnapPoints else StraightMissingSnapPoint;
      var warned := c.(drawn := at + 1, warnings := c.warnings + [warning]);
      Iterate(c, s, source) == if kind == Turn then Halt(warned) else Go(warned)
  {
  }

  /** What one iteration adds: either one warning and no piece, or one piece
      and no warning; the loop goes on only after a straight piece or a
      skipped straight. */
  lemma IterateAddsOne(c: Chain, s: Settings, source: nat -> Unit)
    requires Feasible(c, s, source)
    ensures var it := Iterate(c, s, source); var n := it.state;
      || (&& n.pieces == c.pieces && n.lastSnap == c.lastSnap
          && n.warnings == c.warnings + [if it.Go? then StraightMissingSnapPoint else TurnMissingSnapPoints])
      || (&& n.warnings == c.warnings && |n.pieces| == |c.pieces| + 1 && n.pieces[..|c.pieces|] == c.pieces
          && n.pieces[|c.pieces|].kind == (if it.Go? then Straight else Turn))
  {
  }

  /** What the loop does with the `budget` iterations it has left. */
  function Extend(budget: nat, c: Chain, s: Settings, source: nat -> Unit): (r: Chain)
    requires budget == 0 || Feasible(c, s, source)
    ensures |c.pieces| <= |r.pieces| && r.pieces[..|c.pieces|] == c.pieces
    ensures |c.warnings| <= |r.warnings| && r.warnings[..|c.warnings|] == c.warnings
    ensures (|r.pieces| - |c.pieces|) + (|r.warnings| - |c.warnings|) <= budget
    decreases budget
  {
    if budget == 0 then c
    else
      IterateAddsOne(c, s, source);
      var it := Iterate(c, s, source);
      if it.Go? then Extend(budget - 1, it.state, s, source) else it.state
  }

  /** One step of `Extend`: an iteration that lets the loop go on leaves
      the rest of the budget to the chain it produced. */
  lemma ExtendGoesOn(budget: nat, c: Chain, next: Chain, s: Settings, source: nat -> Unit)
    requires Feasible(c, s, source) && budget > 0
    requires Iterate(c, s, source) == Go(next)
    ensures Extend(budget, c, s, source) == Extend(budget - 1, next, s, source)
  {
  }

  /** One step of `Extend`: an iteration that leaves the loop ends the run. */
  lemma ExtendHalts(budget: nat, c: Chain, last: Chain, s: Settings, source: nat -> Unit)
    requires Feasible(c, s, source) && budget > 0
    requires Iterate(c, s, source) == Halt(last)
    ensures Extend(budget, c, s, source) == last
  {
  }

  /** The piece was copied from an existing prefab that has the snap points
      its kind needs. */
  ghost predicate Fits(p: Placed, s: Settings)
  {
    && (p.kind == Straight ==> p.template < |s.straightPrefabs| && s.straightPrefabs[p.template].snapPoint.Some?)
    && (p.kind == Turn ==>
          && p.template < |s.turnPrefabs|
          && s.turnPrefabs[p.template].snapPointEntry.Some?
          && s.turnPrefabs[p.template].snapPointExit.Some?)
  }

  function PrefabOf(p: Placed, s: Settings): SnapPrefab
    requires Fits(p, s)
  {
    if p.kind == Straight then s.straightPrefabs[p.template] else s.turnPrefabs[p.template]
  }

  /** The cursor a placed piece leaves behind. */
  function After(p: Placed, s: Settings): Snap
    requires Fits(p, s)
  {
    ExitSnap(p.position, p.rotation, ExitOf(p.kind, PrefabOf(p, s)).value, s)
  }

  /** The piece was put by `Landing` from the cursor `at`, turned like it. */
  ghost predicate PlacedFrom(p: Placed, at: Snap, s: Settings)
    requires Fits(p, s)
  {
    p.position == Landing(at, PrefabOf(p, s), EntryOf(p.kind, PrefabOf(p, s)).value, s) && p.rotation == at.rotation
  }

  /** The chain of pieces hangs together from `start`: the first piece is
      placed from the start, every other piece from the exit of the one
      before, and the cursor is the exit of the last piece (the start when
      there is none). */
  ghost predicate Chained(pieces: seq<Placed>, lastSnap: Snap, start: Snap, s: Settings)
  {
    && (forall i :: 0 <= i < |pieces| ==> Fits(pieces[i], s))
    && (pieces == [] ==> lastSnap == start)
    && (pieces != [] ==> PlacedFrom(pieces[0], start, s) && lastSnap == After(pieces[|pieces| - 1], s))
    && (forall i :: 0 <= i < |pieces| - 1 ==> PlacedFrom(pieces[i + 1], After(pieces[i], s), s))
  }

  /** Placing a piece from the cursor keeps the chain together. */
  lemma PlaceKeepsChained(c: Chain, kind: Kind, k: nat, s: Settings, start: Snap)
    requires Chained(c.pieces, c.lastSnap, start, s)
    requires kind == Straight ==> k < |s.straightPrefabs| && s.straightPrefabs[k].snapPoint.Some?
    requires kind == Turn ==>
      && k < |s.turnPrefabs|
      && s.turnPrefabs[k].snapPointEntry.Some?
      && s.turnPrefabs[k].snapPointExit.Some?
    ensures var prefab := if kind == Straight then s.straightPrefabs[k] else s.turnPrefabs[k];
      Chained(Place(c, kind, k, prefab, EntryOf(kind, prefab).value, ExitOf(kind, prefab).value, s).pieces,
              Place(c, kind, k, prefab, EntryOf(kind, prefab).value, ExitOf(kind, prefab).value, s).lastSnap, start, s)
  {
    var prefab := if kind == Straight then s.straightPrefabs[k] else s.turnPrefabs[k];
    var r := Place(c, kind, k, prefab, EntryOf(kind, prefab).value, ExitOf(kind, prefab).value, s);
    var n := |c.pieces|;
    assert r.pieces[..n] == c.pieces;
    assert Fits(r.pieces[n], s) && PrefabOf(r.pieces[n], s) == prefab;
    assert forall i :: 0 <= i < n ==> r.pieces[i] == c.pieces[i];
  }

  /** One iteration keeps each piece placed from the exit before it. */
  lemma IterateKeepsChained(c: Chain, s: Settings, source: nat -> Unit, start: Snap)
    requires Feasible(c, s, source)
    requires Chained(c.pieces, c.lastSnap, start, s)
    ensures var n := Iterate(c, s, source).state; Chained(n.pieces, n.lastSnap, start, s)
  {
    var spawnTurn := |s.turnPrefabs| > 0 && source(c.drawn) < s.turnChance;
    var at := if |s.turnPrefabs| > 0 then c.drawn + 1 else c.drawn;
    var kind := if spawnTurn then Turn else Straight;
    assert |PrefabsOf(kind, s)| > 0;
    var k := RangeInt(0, |PrefabsOf(kind, s)|, source(at));
    var prefab := PrefabsOf(kind, s)[k];
    if EntryOf(kind, prefab).Some? && ExitOf(kind, prefab).Some? {
      IterationPlaces(c, s, source, kind, k, at);
      PlaceKeepsChained(c.(drawn := at + 1), kind, k, s, start);
    } else {
      IterationWarns(c, s, source, kind, k, at);
    }
  }

  /** Every run of the loop keeps each piece placed from the exit before it,
      the first from the start snap. */
  lemma {:induction false} ExtendKeepsChained(budget: nat, c: Chain, s: Settings, source: nat -> Unit, start: Snap)
    requires budget == 0 || Feasible(c, s, source)
    requires Chained(c.pieces, c.lastSnap, start, s)
    ensures var r := Extend(budget, c, s, source); Chained(r.pieces, r.lastSnap, start, s)
    decreases budget
  {
    if budget > 0 {
      IterateKeepsChained(c, s, source, start);
      var it := Iterate(c, s, source);
      if it.Go? {
        ExtendGoesOn(budget, c, it.state, s, source);
        ExtendKeepsChained(budget - 1, it.state, s, source, start);
      } else {
        ExtendHalts(budget, c, it.state, s, source);
      }
    }
  }

  /** What a chained layout promises on its own: every piece stands on the
      ground, the first piece is turned like the start snap, and the cursor
      is still the temporary start snap exactly when no piece was placed. */
  lemma ChainedConsequences(pieces: seq<Placed>, lastSnap: Snap, start: Snap, s: Settings)
    requires Chained(pieces, lastSnap, start, s)
    requires start.isStart
    ensures forall i :: 0 <= i < |pieces| ==> pieces[i].position.y == s.groundY
    ensures pieces != [] ==> pieces[0].rotation == start.rotation
    ensures lastSnap.isStart <==> pieces == []
  {
    forall i | 0 <= i < |pieces|
      ensures pieces[i].position.y == s.groundY
    {
      if i > 0 {
        assert PlacedFrom(pieces[(i - 1) + 1], After(pieces[i - 1], s), s);
      }
    }
  }

  /** No piece from index `from` on is a turn, except possibly the last. */
  ghost predicate TurnOnlyLast(pieces: seq<Placed>, from: nat)
  {
    forall i :: from <= i < |pieces| && pieces[i].kind == Turn ==> i == |pieces| - 1
  }

  /** A run that turns only last stays so when a straight piece, or
      nothing, is put before it. */
  lemma TurnOnlyLastBefore(pieces: seq<Placed>, next: seq<Placed>, r: seq<Placed>)
    requires |pieces| <= |next| <= |pieces| + 1 && |next| <= |r| && r[..|next|] == next
    requires |next| > |pieces| ==> next[|pieces|].kind == Straight
    requires TurnOnlyLast(r, |next|)
    ensures TurnOnlyLast(r, |pieces|)
  {
    if |next| > |pieces| {
      assert r[..|next|][|pieces|] == r[|pieces|];
    }
  }

  /** Only the last piece a run adds can be a turn. */
  lemma {:induction false} ExtendTurnOnlyLast(budget: nat, c: Chain, s: Settings, source: nat -> Unit)
    requires budget == 0 || Feasible(c, s, source)
    ensures TurnOnlyLast(Extend(budget, c, s, source).pieces, |c.pieces|)
    decreases budget
  {
    if budget == 0 {
      return;
    }
    var it := Iterate(c, s, source);
    IterateAddsOne(c, s, source);
    if it.Halt? {
      ExtendHalts(budget, c, it.state, s, source);
    } else {
      ExtendGoesOn(budget, c, it.state, s, source);
      ExtendTurnOnlyLast(budget - 1, it.state, s, source);
      TurnOnlyLastBefore(c.pieces, it.state.pieces, Extend(budget - 1, it.state, s, source).pieces);
    }
  }

  /** A run of straight pieces stays one when a straight piece is put
      before it. */
  lemma StraightBefore(pieces: seq<Placed>, next: seq<Placed>, r: seq<Placed>)
    requires |next| == |pieces| + 1 && |next| <= |r| && r[..|next|] == next
    requires next[|pieces|].kind == Straight
    requires forall i :: |next| <= i < |r| ==> r[i].kind == Straight
    ensures forall i :: |pieces| <= i < |r| ==> r[i].kind == Straight
  {
    assert r[..|next|][|pieces|] == r[|pieces|];
  }

  /** With no turn possible and a snap point on every straight prefab, every
      iteration places a straight piece and nothing is logged. */
  lemma {:induction false} ExtendAllStraight(budget: nat, c: Chain, s: Settings, source: nat -> Unit)
    requires |s.straightPrefabs| > 0
    requires |s.turnPrefabs| == 0 || s.turnChance <= 0.0
    requires forall k :: 0 <= k < |s.straightPrefabs| ==> s.straightPrefabs[k].snapPoint.Some?
    ensures var r := Extend(budget, c, s, source);
      && |r.pieces| == |c.pieces| + budget
      && (forall i :: |c.pieces| <= i < |r.pieces| ==> r.pieces[i].kind == Straight)
      && r.warnings == c.warnings
    decreases budget
  {
    if budget > 0 {
      var at := if |s.turnPrefabs| > 0 then c.drawn + 1 else c.drawn;
      var k := RangeInt(0, |s.straightPrefabs|, source(at));
      var prefab := s.straightPrefabs[k];
      var next := Place(c.(drawn := at + 1), Straight, k, prefab, prefab.snapPoint.value, prefab.snapPoint.value, s);
      assert 0.0 <= source(c.drawn);
      IterationPlaces(c, s, source, Straight, k, at);
      ExtendGoesOn(budget, c, next, s, source);
      ExtendAllStraight(budget - 1, next, s, source);
      var rest := Extend(budget - 1, next, s, source);
      assert |rest.pieces| == |c.pieces| + budget by {
        assert |next.pieces| == |c.pieces| + 1;
      }
      StraightBefore(c.pieces, next.pieces, rest.pieces);
    }
  }

  /** With no turn possible and no straight prefab carrying a snap point,
      every iteration is skipped with a warning and nothing is placed: a
      missing straight snap point does not end the run. */
  lemma {:induction false} ExtendSkipsSnaplessStraights(budget: nat, c: Chain, s: Settings, source: nat -> Unit)
    requires |s.straightPrefabs| > 0
    requires |s.turnPrefabs| == 0 || s.turnChance <= 0.0
    requires forall k :: 0 <= k < |s.straightPrefabs| ==> s.straightPrefabs[k].snapPoint.None?
    ensures var r := Extend(budget, c, s, source);
      r.pieces == c.pieces && r.lastSnap == c.lastSnap
      && r.warnings == c.warnings + seq(budget, _ => StraightMissingSnapPoint)
    decreases budget
  {
    if budget > 0 {
      var at := if |s.turnPrefabs| > 0 then c.drawn + 1 else c.drawn;
      var next := c.(drawn := at + 1, warnings := c.warnings + [StraightMissingSnapPoint]);
      assert Iterate(c, s, source) == Go(next);
      ExtendSkipsSnaplessStraights(budget - 1, next, s, source);
      assert c.warnings + [StraightMissingSnapPoint] + seq(budget - 1, _ => StraightMissingSnapPoint)
          == c.warnings + seq(budget, _ => StraightMissingSnapPoint);
    }
  }

  /** When the coin asks for a turn and the drawn turn prefab lacks a snap
      point, the run ends at once with a warning and no new piece, whatever
      budget was left. */
  lemma TurnWithoutSnapPointsStops(budget: nat, c: Chain, s: Settings, source: nat -> Unit)
    requires budget > 0 && |s.turnPrefabs| > 0 && source(c.drawn) < s.turnChance
    requires var prefab := s.turnPrefabs[RangeInt(0, |s.turnPrefabs|, source(c.drawn + 1))];
      prefab.snapPointEntry.None? || prefab.snapPointExit.None?
    ensures var r := Extend(budget, c, s, source);
      r.pieces == c.pieces && r.lastSnap == c.lastSnap && r.warnings == c.warnings + [TurnMissingSnapPoints]
  {
  }

  /** Nothing requires a straight piece before a turn: when the coin asks for
      a turn and the drawn turn prefab has both snap points, the very next
      piece is that turn, and the run ends with it. */
  lemma TurnMayComeFirst(budget: nat, c: Chain, s: Settings, source: nat -> Unit)
    requires budget > 0 && |s.turnPrefabs| > 0 && source(c.drawn) < s.turnChance
    requires forall k :: 0 <= k < |s.turnPrefabs| ==>
      s.turnPrefabs[k].snapPointEntry.Some? && s.turnPrefabs[k].snapPointExit.Some?
    ensures var r := Extend(budget, c, s, source);
      |r.pieces| == |c.pieces| + 1 && r.pieces[|c.pieces|].kind == Turn
  {
    var k := RangeInt(0, |s.turnPrefabs|, source(c.drawn + 1));
    assert s.turnPrefabs[k].snapPointEntry.Some? && s.turnPrefabs[k].snapPointExit.Some?;
  }

  /** A straight prefab enters and leaves by the same snap point, so when its
      root rotation is the cursor's rotation the cursor moves across the
      ground by the pivot offset only: without a pivot offset, consecutive
      straight pieces are all put at the same spot. */
  lemma StraightAdvancesByPivotOnly(c: Chain, k: nat, s: Settings)
    requires k < |s.straightPrefabs| && s.straightPrefabs[k].snapPoint.Some?
    requires s.straightPrefabs[k].rotation == c.lastSnap.rotation
    ensures var prefab := s.straightPrefabs[k];
      var r := Place(c, Straight, k, prefab, prefab.snapPoint.value, prefab.snapPoint.value, s);
      && r.lastSnap.position.x == c.lastSnap.position.x + s.pivotOffset.x
      && r.lastSnap.position.z == c.lastSnap.position.z + s.pivotOffset.z
  {
  }

  /** Without a pivot offset, a placed piece's entry meets the cursor across
      the ground exactly when the prefab's root rotation and the cursor's
      rotation turn the entry offset alike there. */
  lemma EntryMeetsCursor(at: Snap, prefab: SnapPrefab, entry: SnapPoint, s: Settings)
    requires s.pivotOffset == Vec3(0.0, 0.0, 0.0)
    ensures var world := Landing(at, prefab, entry, s).Plus(s.geometry.rotate(at.rotation, entry.localPosition));
      var turned := s.geometry.rotate(at.rotation, entry.localPosition);
      var own := s.geometry.rotate(prefab.rotation, entry.localPosition);
      (world.x == at.position.x && world.z == at.position.z) <==> (turned.x == own.x && turned.z == own.z)
  {
  }

  /** The half turn about the vertical axis. */
  const HalfTurn := Quaternion(0.0, 0.0, 1.0, 0.0)
  const NoTurn := Quaternion(1.0, 0.0, 0.0, 0.0)

  /** The engine's rotation for the two rotations above. */
  function HalfTurnRotate(q: Quaternion, v: Vec3): Vec3
  {
    if q == HalfTurn then Vec3(-v.x, v.y, -v.z) else v
  }

  /** The entry need not meet the cursor: an unrotated prefab whose entry
      sits one unit along x, placed from a cursor at the origin that faces
      back, is put one unit along -x and turned half round, so its entry ends
      up two units away from the cursor. */
  lemma EntryMissesTurnedCursor()
    ensures var s := Settings([], [], 0.0, 0.0, Vec3(0.0, 0.0, 0.0), Geometry(HalfTurnRotate, (p, q) => p));
      var at := Snap(Vec3(0.0, 0.0, 0.0), HalfTurn, false);
      var entry := SnapPoint(Vec3(1.0, 0.0, 0.0), NoTurn);
      var prefab := SnapPrefab(NoTurn, Some(entry), None, None);
      Landing(at, prefab, entry, s).Plus(s.geometry.rotate(at.rotation, entry.localPosition)) == Vec3(-2.0, 0.0, 0.0)
  {
  }

  /** The generator component. Its inspector settings are fixed; it keeps
      the spawned pieces and the cursor between calls, and the model counts
      the "StartSnap" objects that were created and never destroyed. */
  class SimpleMapGenerator {
    const straightPrefabs: seq<SnapPrefab>
    const turnPrefabs: seq<SnapPrefab>
    const maxSegments: int
    const groundY: real
    const turnChance: real
    const pivotOffset: Vec3
    /** The generator's own transform. */
    const position: Vec3
    const rotation: Quaternion
    const geometry: Geometry

    var spawnedPieces: seq<Placed>
    var lastSnap: Option<Snap>
    var liveStartSnaps: nat

    constructor (straightPrefabs: seq<SnapPrefab>, turnPrefabs: seq<SnapPrefab>, maxSegments: int,
                 groundY: real, turnChance: real, pivotOffset: Vec3,
                 position: Vec3, rotation: Quaternion, geometry: Geometry)
      ensures this.straightPrefabs == straightPrefabs && this.turnPrefabs == turnPrefabs
      ensures this.maxSegments == maxSegments && this.groundY == groundY && this.turnChance == turnChance
      ensures this.pivotOffset == pivotOffset && this.position == position && this.rotation == rotation
      ensures this.geometry == geometry
      ensures spawnedPieces == [] && lastSnap == None && liveStartSnaps == 0
    {
      this.straightPrefabs := straightPrefabs;
      this.turnPrefabs := turnPrefabs;
      this.maxSegments := maxSegments;
      this.groundY := groundY;
      this.turnChance := turnChance;
      this.pivotOffset := pivotOffset;
      this.position := position;
      this.rotation := rotation;
      this.geometry := geometry;
      spawnedPieces := [];
      lastSnap := None;
      liveStartSnaps := 0;
    }

    function Config(): Settings
    {
      Settings(straightPrefabs, turnPrefabs, groundY, turnChance, pivotOffset, geometry)
    }

    /** The temporary cursor: under the generator, at ground level, turned
        like the generator. */
    function StartSnap(): (snap: Snap)
      ensures snap.isStart && snap.rotation == rotation
      ensures snap.position.x == position.x && snap.position.z == position.z && snap.position.y == groundY
    {
      Snap(Vec3(position.x, groundY, position.z), rotation, true)
    }

    /** Destroys every spawned piece. */
    method ResetMap()
      modifies this`spawnedPieces
      ensures spawnedPieces == []
    {
      spawnedPieces := [];
    }

    /** Resets, then chains up to `maxSegments` pieces from the start snap;
        returns the warnings logged. The start snap is destroyed only when
        the cursor still is the start snap, that is, when nothing was placed. */
    method GenerateMap(rng: RandomStream) returns (warnings: seq<Warning>)
      requires maxSegments <= 0 || Feasible(Chain([], StartSnap(), rng.drawn, []), Config(), rng.source)
      modifies this`spawnedPieces, this`lastSnap, this`liveStartSnaps, rng`drawn
      ensures var r := Extend(Iterations(maxSegments), Chain([], StartSnap(), old(rng.drawn), []), Config(), rng.source);
        spawnedPieces == r.pieces && lastSnap == Some(r.lastSnap) && rng.drawn == r.drawn && warnings == r.warnings
      ensures |spawnedPieces| + |warnings| <= Iterations(maxSegments)
      ensures Chained(spawnedPieces, lastSnap.value, StartSnap(), Config())
      ensures forall i :: 0 <= i < |spawnedPieces| ==> spawnedPieces[i].position.y == groundY
      ensures liveStartSnaps == old(liveStartSnaps) + (if spawnedPieces == [] then 0 else 1)
    {
      ResetMap();
      lastSnap := Some(StartSnap());
      liveStartSnaps := liveStartSnaps + 1;
      warnings := SpawnSegments(rng);
      ExtendKeepsChained(Iterations(maxSegments), Chain([], StartSnap(), old(rng.drawn), []), Config(), rng.source, StartSnap());
      ChainedConsequences(spawnedPieces, lastSnap.value, StartSnap(), Config());
      if lastSnap.Some? && lastSnap.value.isStart {
        liveStartSnaps := liveStartSnaps - 1;
      }
    }

    /** The loop of `GenerateMap`: up to `maxSegments` passes from the
        cursor, with no warning logged yet. */
    method SpawnSegments(rng: RandomStream) returns (warnings: seq<Warning>)
      requires lastSnap.Some?
      requires maxSegments <= 0 || Feasible(Chain(spawnedPieces, lastSnap.value, rng.drawn, []), Config(), rng.source)
      modifies this`spawnedPieces, this`lastSnap, rng`drawn
      ensures lastSnap.Some?
      ensures Chain(spawnedPieces, lastSnap.value, rng.drawn, warnings)
           == Extend(Iterations(maxSegments), Chain(old(spawnedPieces), old(lastSnap).value, old(rng.drawn), []),
                     Config(), rng.source)
    {
      warnings := [];
      ghost var budget := Iterations(maxSegments);
      ghost var initial := Chain(spawnedPieces, lastSnap.value, rng.drawn, []);
      var i := 0;
      while i < maxSegments
        invariant 0 <= i <= budget
        invariant lastSnap.Some?
        invariant budget - i == 0 || Feasible(Chain(spawnedPieces, lastSnap.value, rng.drawn, warnings), Config(), rng.source)
        invariant Extend(budget - i, Chain(spawnedPieces, lastSnap.value, rng.drawn, warnings), Config(), rng.source)
               == Extend(budget, initial, Config(), rng.source)
      {
        ghost var before := Chain(spawnedPieces, lastSnap.value, rng.drawn, warnings);
        var stop;
        stop, warnings := SpawnNext(rng, warnings);
        ghost var after := Chain(spawnedPieces, lastSnap.value, rng.drawn, warnings);
        if stop {
          ExtendHalts(budget - i, before, after, Config(), rng.source);
          break;
        }
        ExtendGoesOn(budget - i, before, after, Config(), rng.source);
        i := i + 1;
      }
    }

    /** One pass of the generation loop: flips the turn coin when there are
        turn prefabs, draws a template of the chosen kind and either places
        it at the cursor or logs that it lacks a snap point. `stop` is the
        loop's `break`: after a turn, placed or not. */
    method SpawnNext(rng: RandomStream, logged: seq<Warning>) returns (stop: bool, warnings: seq<Warning>)
      requires lastSnap.Some? && Feasible(Chain(spawnedPieces, lastSnap.value, rng.drawn, logged), Config(), rng.source)
      modifies this`spawnedPieces, this`lastSnap, rng`drawn
      ensures lastSnap.Some?
      ensures var next := Chain(spawnedPieces, lastSnap.value, rng.drawn, warnings);
        Iterate(Chain(old(spawnedPieces), old(lastSnap).value, old(rng.drawn), logged), Config(), rng.source)
          == if stop then Halt(next) else Go(next)
    {
      ghost var before := Chain(spawnedPieces, lastSnap.value, rng.drawn, logged);
      warnings := logged;
      var spawnTurn := false;
      if |turnPrefabs| > 0 {
        var coin := rng.Value();
        spawnTurn := coin < turnChance;
      }
      assert spawnTurn == (|Config().turnPrefabs| > 0 && rng.source(before.drawn) < Config().turnChance);
      assert rng.drawn == if |Config().turnPrefabs| > 0 then before.drawn + 1 else before.drawn;
      ghost var at := rng.drawn;
      var kind: Kind;
      var k: int;
      var prefab: SnapPrefab;
      var entry: SnapPoint;
      var exit: SnapPoint;
      if spawnTurn {
        k := rng.Range(0, |turnPrefabs|);
        assert k == RangeInt(0, |Config().turnPrefabs|, rng.source(at)) && rng.drawn == at + 1;
        prefab := turnPrefabs[k];
        if prefab.snapPointEntry.None? || prefab.snapPointExit.None? {
          warnings := warnings + [TurnMissingSnapPoints];
          IterationWarns(before, Config(), rng.source, Turn, k, at);
          return true, warnings;
        }
        kind, entry, exit := Turn, prefab.snapPointEntry.value, prefab.snapPointExit.value;
      } else {
        k := rng.Range(0, |straightPrefabs|);
        assert k == RangeInt(0, |Config().straightPrefabs|, rng.source(at)) && rng.drawn == at + 1;
        prefab := straightPrefabs[k];
        if prefab.snapPoint.None? {
          warnings := warnings + [StraightMissingSnapPoint];
          IterationWarns(before, Config(), rng.source, Straight, k, at);
          return false, warnings;
        }
        kind, entry, exit := Straight, prefab.snapPoint.value, prefab.snapPoint.value;
      }
      var spawnPos := Landing(lastSnap.value, prefab, entry, Config());
      var spawnRot := lastSnap.value.rotation;
      spawnedPieces := spawnedPieces + [Placed(kind, k, spawnPos, spawnRot)];
      lastSnap := Some(ExitSnap(spawnPos, spawnRot, exit, Config()));
      IterationPlaces(before, Config(), rng.source, kind, k, at);
      assert Chain(spawnedPieces, lastSnap.value, rng.drawn, warnings)
          == Place(before.(drawn := rng.drawn), kind, k, prefab, entry, exit, Config());
      stop := spawnTurn;
    }
  }
}
