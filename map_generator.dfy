/** The waypoint-walk road generator (`MapGenerator`): it lays a row of
    waypoints ahead of the generator, then walks consecutive waypoint pairs
    and places one straight road piece per pair, until a random draw asks
    for a turn, which is placed after the last piece and ends the walk.

    Positions and rotations are left abstract: a waypoint is known by its
    step along the generator's forward axis and its vertical jitter, and a
    placed piece by its kind and the index of the template it copies. */
module MapGeneration {
  import opened Engine
  import opened Road

  /** A prefab as far as its length goes: the depth (z size) of the bounds of
      its first mesh, when it has a mesh at all, and its scale along z. */
  datatype Prefab = Prefab(meshDepth: Option<real>, scaleZ: real)

  /** A spawned piece: straight or turn, and its index in `roadPieces`
      or `turnPrefabs` respectively. */
  datatype Piece = Piece(kind: Kind, template: nat)

  /** The waypoint `origin + forward * (step * spacing)`, raised by `lift`. */
  datatype Waypoint = Waypoint(step: nat, lift: real)

  /** What the walk needs to know of the prefab lists and settings. */
  datatype Odds = Odds(straights: nat, turns: nat, turnChance: real)

  /** The pieces spawned so far and how many random draws were used. */
  datatype Laid = Laid(pieces: seq<Piece>, drawn: nat)

  /** `GetPrefabLength`: the scaled mesh depth, or 1 for a prefab without
      mesh. A mesh of non-negative depth and scale never gives a negative
      length. */
  function PrefabLength(p: Prefab): (length: real)
    ensures p.meshDepth.None? ==> length == 1.0
    ensures p.meshDepth.Some? && p.meshDepth.value >= 0.0 && p.scaleZ >= 0.0 ==> length >= 0.0
  {
    match p.meshDepth
    case None => 1.0
    case Some(depth) =>
      assert depth >= 0.0 && p.scaleZ >= 0.0 ==> depth * p.scaleZ >= 0.0;
      depth * p.scaleZ
  }

  /** `GetForwardExtent`: half the scaled mesh depth, or 1 without mesh. It
      is half the prefab length exactly when the prefab has a mesh; without
      one both fall back to the same default of 1, so the extent is then the
      whole default length rather than half of it. */
  function ForwardExtent(p: Prefab): (extent: real)
    ensures p.meshDepth.Some? <==> 2.0 * extent == PrefabLength(p)
    ensures p.meshDepth.None? ==> extent == PrefabLength(p) == 1.0
  {
    match p.meshDepth
    case None => 1.0
    case Some(depth) => depth * p.scaleZ / 2.0
  }

  /** The `count` waypoints `GeneratePath` lays, the i-th jittered by the
      i-th draw taken from `at` on. */
  function PlannedPath(count: nat, noise: real, source: nat -> Unit, at: nat): (path: seq<Waypoint>)
    ensures |path| == count
    ensures forall i :: 0 <= i < count ==>
      path[i] == Waypoint(i, RangeFloat(-noise, noise, source(at + i)))
    decreases count
  {
    if count == 0 then []
    else PlannedPath(count - 1, noise, source, at) + [Waypoint(count - 1, RangeFloat(-noise, noise, source(at + count - 1)))]
  }

  /** No waypoint rises or sinks by more than the noise amplitude; with no
      noise the path is flat. */
  lemma PathJitterBounded(count: nat, noise: real, source: nat -> Unit, at: nat)
    ensures forall i :: 0 <= i < count ==>
      -Magnitude(noise) <= PlannedPath(count, noise, source, at)[i].lift <= Magnitude(noise)
    ensures noise == 0.0 ==>
      forall i :: 0 <= i < count ==> PlannedPath(count, noise, source, at)[i].lift == 0.0
  {
  }

  function Magnitude(x: real): real { if x < 0.0 then -x else x }

  /** The walk can index the list each step picks: the source throws when a
      step goes straight and the straight list is empty, which a first step
      that turns never reaches. */
  ghost predicate Walkable(steps: nat, pieces: seq<Piece>, odds: Odds, source: nat -> Unit, at: nat)
  {
    steps == 0 || odds.straights > 0 || (odds.turns > 0 && source(at) < odds.turnChance && |pieces| > 0)
  }

  /** The pieces `SpawnRoadPieces` adds to `pieces` while walking `steps`
      waypoint pairs, the draws being taken from `at` on. Each step draws the
      turn coin (only when there are turn prefabs) and then a template index. */
  function Walk(steps: nat, pieces: seq<Piece>, odds: Odds, source: nat -> Unit, at: nat): (r: Laid)
    requires Walkable(steps, pieces, odds, source, at)
    ensures |pieces| <= |r.pieces| <= |pieces| + steps
    ensures r.pieces[..|pieces|] == pieces
    decreases steps
  {
    if steps == 0 then Laid(pieces, at)
    else if odds.turns > 0 && source(at) < odds.turnChance && |pieces| > 0 then
      Laid(pieces + [Piece(Turn, RangeInt(0, odds.turns, source(at + 1)))], at + 2)
    else
      var next := if odds.turns > 0 then at + 1 else at;
      Walk(steps - 1, pieces + [Piece(Straight, RangeInt(0, odds.straights, source(next)))], odds, source, next + 1)
  }

  /** One step of the walk that places straight template `k`, drawn at
      `next`, and goes on. */
  lemma WalkGoesStraight(steps: nat, pieces: seq<Piece>, odds: Odds, source: nat -> Unit, at: nat, next: nat, k: int)
    requires odds.straights > 0 && steps > 0
    requires !(odds.turns > 0 && source(at) < odds.turnChance && |pieces| > 0)
    requires next == if odds.turns > 0 then at + 1 else at
    requires k == RangeInt(0, odds.straights, source(next))
    ensures k >= 0
    ensures Walk(steps, pieces, odds, source, at) == Walk(steps - 1, pieces + [Piece(Straight, k)], odds, source, next + 1)
  {
  }

  /** One step of the walk that places turn template `k` and stops. */
  lemma WalkTurns(steps: nat, pieces: seq<Piece>, odds: Odds, source: nat -> Unit, at: nat, k: int)
    requires steps > 0
    requires odds.turns > 0 && source(at) < odds.turnChance && |pieces| > 0
    requires k == RangeInt(0, odds.turns, source(at + 1))
    ensures k >= 0
    ensures Walk(steps, pieces, odds, source, at) == Laid(pieces + [Piece(Turn, k)], at + 2)
  {
  }

  /** From index `from` on, a turn is only ever the last piece, and never
      the first piece of the list. */
  ghost predicate TurnOnlyLastNeverFirst(r: seq<Piece>, from: nat)
  {
    forall i :: from <= i < |r| && r[i].kind == Turn ==> 0 < i == |r| - 1
  }

  /** Only the last piece the walk adds can be a turn, and a turn is never
      the first piece of the list. */
  lemma {:induction false} WalkEndsOnTurnOnly(steps: nat, pieces: seq<Piece>, odds: Odds, source: nat -> Unit, at: nat)
    requires Walkable(steps, pieces, odds, source, at)
    ensures TurnOnlyLastNeverFirst(Walk(steps, pieces, odds, source, at).pieces, |pieces|)
    decreases steps
  {
    if steps == 0 {
      return;
    }
    var r := Walk(steps, pieces, odds, source, at).pieces;
    if odds.turns > 0 && source(at) < odds.turnChance && |pieces| > 0 {
      var k := RangeInt(0, odds.turns, source(at + 1));
      WalkTurns(steps, pieces, odds, source, at, k);
      assert r == pieces + [Piece(Turn, k)];
    } else {
      var next := if odds.turns > 0 then at + 1 else at;
      var k := RangeInt(0, odds.straights, source(next));
      WalkGoesStraight(steps, pieces, odds, source, at, next, k);
      var more := pieces + [Piece(Straight, k)];
      WalkEndsOnTurnOnly(steps - 1, more, odds, source, next + 1);
      assert r == Walk(steps - 1, more, odds, source, next + 1).pieces;
      assert TurnOnlyLastNeverFirst(r, |more|);
      assert r[|pieces|] == more[|pieces|];
    }
  }

  /** A walk that places fewer pieces than it had steps ended on a turn. */
  lemma {:induction false} WalkShortEndsOnTurn(steps: nat, pieces: seq<Piece>, odds: Odds, source: nat -> Unit, at: nat)
    requires Walkable(steps, pieces, odds, source, at)
    ensures var r := Walk(steps, pieces, odds, source, at).pieces;
      |r| < |pieces| + steps ==> |r| > |pieces| && r[|r| - 1].kind == Turn
    decreases steps
  {
    if steps > 0 && !(odds.turns > 0 && source(at) < odds.turnChance && |pieces| > 0) {
      var next := if odds.turns > 0 then at + 1 else at;
      var k := RangeInt(0, odds.straights, source(next));
      WalkGoesStraight(steps, pieces, odds, source, at, next, k);
      WalkShortEndsOnTurn(steps - 1, pieces + [Piece(Straight, k)], odds, source, next + 1);
    } else if steps > 0 {
      WalkTurns(steps, pieces, odds, source, at, RangeInt(0, odds.turns, source(at + 1)));
    }
  }

  /** From index `from` on, every template index lies within its list, and
      turns occur only with turn prefabs and a chance above zero. */
  ghost predicate TemplatesInRange(r: seq<Piece>, from: nat, odds: Odds)
  {
    forall i :: from <= i < |r| ==>
      (r[i].kind == Straight ==> r[i].template < odds.straights) &&
      (r[i].kind == Turn ==> r[i].template < odds.turns && odds.turnChance > 0.0)
  }

  /** Every template index the walk chooses lies within its list, and a turn
      is chosen only when there are turn prefabs and a chance above zero. */
  lemma {:induction false} WalkTemplatesInRange(steps: nat, pieces: seq<Piece>, odds: Odds, source: nat -> Unit, at: nat)
    requires Walkable(steps, pieces, odds, source, at)
    ensures TemplatesInRange(Walk(steps, pieces, odds, source, at).pieces, |pieces|, odds)
    decreases steps
  {
    if steps == 0 {
      return;
    }
    var r := Walk(steps, pieces, odds, source, at).pieces;
    if odds.turns > 0 && source(at) < odds.turnChance && |pieces| > 0 {
      var k := RangeInt(0, odds.turns, source(at + 1));
      WalkTurns(steps, pieces, odds, source, at, k);
      assert 0.0 <= source(at);
      assert r == pieces + [Piece(Turn, k)];
    } else {
      var next := if odds.turns > 0 then at + 1 else at;
      var k := RangeInt(0, odds.straights, source(next));
      WalkGoesStraight(steps, pieces, odds, source, at, next, k);
      var more := pieces + [Piece(Straight, k)];
      WalkTemplatesInRange(steps - 1, more, odds, source, next + 1);
      assert r == Walk(steps - 1, more, odds, source, next + 1).pieces;
      assert TemplatesInRange(r, |more|, odds);
      assert r[|pieces|] == more[|pieces|];
    }
  }

  /** Without turn prefabs, or with no chance of a turn, the walk places one
      straight piece per step. */
  lemma {:induction false} WalkWithoutTurns(steps: nat, pieces: seq<Piece>, odds: Odds, source: nat -> Unit, at: nat)
    requires odds.straights > 0 || steps == 0
    requires odds.turns == 0 || odds.turnChance <= 0.0
    ensures var r := Walk(steps, pieces, odds, source, at).pieces;
      |r| == |pieces| + steps && forall i :: |pieces| <= i < |r| ==> r[i].kind == Straight
    decreases steps
  {
    if steps > 0 {
      assert 0.0 <= source(at);
      var next := if odds.turns > 0 then at + 1 else at;
      var k := RangeInt(0, odds.straights, source(next));
      WalkGoesStraight(steps, pieces, odds, source, at, next, k);
      var more := pieces + [Piece(Straight, k)];
      WalkWithoutTurns(steps - 1, more, odds, source, next + 1);
      var r := Walk(steps, pieces, odds, source, at).pieces;
      assert r[|pieces|] == more[|pieces|];
    }
  }

  /** The shape of a road laid from scratch: every piece but the last is
      straight, the first is straight, every template index is in range. */
  ghost predicate WellFormedRoad(pieces: seq<Piece>, odds: Odds)
  {
    && (forall i :: 0 <= i < |pieces| - 1 ==> pieces[i].kind == Straight)
    && (|pieces| > 0 ==> pieces[0].kind == Straight)
    && (forall i :: 0 <= i < |pieces| ==>
          (pieces[i].kind == Straight ==> pieces[i].template < odds.straights) &&
          (pieces[i].kind == Turn ==> pieces[i].template < odds.turns))
  }

  /** A road walked from an empty piece list: it is well formed, holds at most
      one piece per step, and a turn, if any, comes right after a straight
      piece (the piece whose forward extent places it). */
  lemma GeneratedRoad(steps: nat, odds: Odds, source: nat -> Unit, at: nat)
    requires odds.straights > 0 || steps == 0
    ensures var r := Walk(steps, [], odds, source, at).pieces;
      && WellFormedRoad(r, odds)
      && |r| <= steps
      && (|r| > 0 && r[|r| - 1].kind == Turn ==> |r| >= 2 && r[|r| - 2].kind == Straight)
      && (|r| < steps ==> |r| > 0 && r[|r| - 1].kind == Turn)
  {
    WalkEndsOnTurnOnly(steps, [], odds, source, at);
    WalkShortEndsOnTurn(steps, [], odds, source, at);
    WalkTemplatesInRange(steps, [], odds, source, at);
  }

  /** The generator component: its inspector settings and the two lists it
      keeps between calls. Geometry-only settings (spacing, piece spacing,
      pivot offset, the generator's transform) are not modelled. */
  class MapGenerator {
    const numberOfPoints: int
    const noise: real
    const roadPieces: seq<Prefab>
    const turnPrefabs: seq<Prefab>
    const turnChance: real

    var pathPoints: seq<Waypoint>
    var spawnedPieces: seq<Piece>

    constructor (numberOfPoints: int, noise: real, roadPieces: seq<Prefab>,
                 turnPrefabs: seq<Prefab>, turnChance: real)
      ensures this.numberOfPoints == numberOfPoints && this.noise == noise
      ensures this.roadPieces == roadPieces && this.turnPrefabs == turnPrefabs
      ensures this.turnChance == turnChance
      ensures pathPoints == [] && spawnedPieces == []
    {
      this.numberOfPoints := numberOfPoints;
      this.noise := noise;
      this.roadPieces := roadPieces;
      this.turnPrefabs := turnPrefabs;
      this.turnChance := turnChance;
      pathPoints := [];
      spawnedPieces := [];
    }

    function Chances(): Odds
    {
      Odds(|roadPieces|, |turnPrefabs|, turnChance)
    }

    /** Destroys every spawned piece and forgets the waypoints. */
    method ResetMap()
      modifies this`spawnedPieces, this`pathPoints
      ensures spawnedPieces == [] && pathPoints == []
    {
      spawnedPieces := [];
      pathPoints := [];
    }

    /** Replaces the waypoints by `numberOfPoints` fresh ones (none when it is
        not positive), using one draw each. */
    method GeneratePath(rng: RandomStream)
      modifies this`pathPoints, rng`drawn
      ensures pathPoints == PlannedPath(Iterations(numberOfPoints), noise, rng.source, old(rng.drawn))
      ensures rng.drawn == old(rng.drawn) + Iterations(numberOfPoints)
    {
      pathPoints := [];
      var i := 0;
      while i < numberOfPoints
        invariant 0 <= i <= Iterations(numberOfPoints)
        invariant pathPoints == PlannedPath(i, noise, rng.source, old(rng.drawn))
        invariant rng.drawn == old(rng.drawn) + i
      {
        var lift := rng.RangeReal(-noise, noise);
        pathPoints := pathPoints + [Waypoint(i, lift)];
        i := i + 1;
      }
    }

    /** Walks the waypoint pairs, appending one piece per pair to
        `spawnedPieces`, and stops right after placing a turn. */
    method SpawnRoadPieces(rng: RandomStream)
      requires |pathPoints| <= 1 || |roadPieces| > 0
            || (|turnPrefabs| > 0 && rng.source(rng.drawn) < turnChance && |spawnedPieces| > 0)
      modifies this`spawnedPieces, rng`drawn
      ensures var steps := if |pathPoints| == 0 then 0 else |pathPoints| - 1;
        Laid(spawnedPieces, rng.drawn) == Walk(steps, old(spawnedPieces), Chances(), rng.source, old(rng.drawn))
    {
      if |pathPoints| == 0 {
        return;
      }
      ghost var whole := Walk(|pathPoints| - 1, spawnedPieces, Chances(), rng.source, rng.drawn);
      var i := 0;
      while i < |pathPoints| - 1
        invariant 0 <= i <= |pathPoints| - 1
        invariant Walkable(|pathPoints| - 1 - i, spawnedPieces, Chances(), rng.source, rng.drawn)
        invariant Walk(|pathPoints| - 1 - i, spawnedPieces, Chances(), rng.source, rng.drawn) == whole
      {
        var stop := SpawnNext(rng, |pathPoints| - 1 - i);
        if stop {
          break;
        }
        i := i + 1;
      }
    }

    /** One pass of the spawning loop: draws the turn coin when there are turn
        prefabs; places a turn and reports `stop` (the `break`) when the coin
        asks for one and a piece already exists, and places a straight piece
        otherwise. `steps` is the number of waypoint pairs still to walk. */
    method SpawnNext(rng: RandomStream, ghost steps: nat) returns (stop: bool)
      requires steps > 0 && Walkable(steps, spawnedPieces, Chances(), rng.source, rng.drawn)
      modifies this`spawnedPieces, rng`drawn
      ensures !stop ==> |roadPieces| > 0
      ensures Walk(steps, old(spawnedPieces), Chances(), rng.source, old(rng.drawn))
        == if stop then Laid(spawnedPieces, rng.drawn) else Walk(steps - 1, spawnedPieces, Chances(), rng.source, rng.drawn)
    {
      ghost var at := rng.drawn;
      var placeTurn := false;
      if |turnPrefabs| > 0 {
        var coin := rng.Value();
        placeTurn := coin < turnChance && |spawnedPieces| > 0;
      }
      ghost var next := rng.drawn;
      if placeTurn {
        var k := rng.Range(0, |turnPrefabs|);
        WalkTurns(steps, spawnedPieces, Chances(), rng.source, at, k);
        spawnedPieces := spawnedPieces + [Piece(Turn, k)];
        return true;
      }
      var k := rng.Range(0, |roadPieces|);
      WalkGoesStraight(steps, spawnedPieces, Chances(), rng.source, at, next, k);
      spawnedPieces := spawnedPieces + [Piece(Straight, k)];
      return false;
    }

    /** Reset, lay the waypoints, then spawn the pieces along them. */
    method GenerateMap(rng: RandomStream)
      requires |roadPieces| > 0 || numberOfPoints <= 1
      modifies this`spawnedPieces, this`pathPoints, rng`drawn
      ensures pathPoints == PlannedPath(Iterations(numberOfPoints), noise, rng.source, old(rng.drawn))
      ensures Laid(spawnedPieces, rng.drawn)
           == Walk(Iterations(numberOfPoints - 1), [], Chances(), rng.source, old(rng.drawn) + Iterations(numberOfPoints))
      ensures WellFormedRoad(spawnedPieces, Chances())
      ensures |spawnedPieces| <= Iterations(numberOfPoints - 1)
    {
      ResetMap();
      GeneratePath(rng);
      ghost var steps := Iterations(numberOfPoints - 1);
      assert steps == if |pathPoints| == 0 then 0 else |pathPoints| - 1;
      ghost var start := rng.drawn;
      SpawnRoadPieces(rng);
      assert Laid(spawnedPieces, rng.drawn) == Walk(steps, [], Chances(), rng.source, start);
      GeneratedRoad(steps, Chances(), rng.source, start);
    }
  }
}
