/** `Map.chooseSpreadOutLocations`: a greedy placement that keeps picks at
    least a given distance apart and spreads them evenly over the terrain
    types of the candidates, loosening the distance until enough are placed.
    Tiles are referred to by their index in the map's tile array. */
module SpreadOut {
  import opened Wrappers
  import opened Seqs
  import opened Terrain
  import opened Tiles

  /** Every listed index names a tile of `ts`. */
  predicate InTiles(ts: seq<Tile>, s: seq<nat>) {
    forall k :: 0 <= k < |s| ==> s[k] < |ts|
  }

  /** The terrain types that occur among the listed tiles. */
  function TerrainsOf(ts: seq<Tile>, s: seq<nat>): set<TerrainType>
    requires InTiles(ts, s)
  {
    set x | x in s :: ts[x].baseTerrain
  }

  /** `baseTerrainsToChosenTiles` after registration: every terrain of the
      candidates, each with no picks yet. */
  function InitialCounts(ts: seq<Tile>, s: seq<nat>): map<TerrainType, int>
    requires InTiles(ts, s)
  {
    map k | k in TerrainsOf(ts, s) :: 0
  }

  /** `availableTiles.filter { it.getDistance(chosenTile) > distance }`. */
  function Far(ts: seq<Tile>, s: seq<nat>, p: nat, distance: int): (r: seq<nat>)
    requires InTiles(ts, s) && p < |ts|
    ensures forall x :: x in r ==> x in s
    ensures |r| <= |s|
    ensures InTiles(ts, r)
  {
    if s == [] then []
    else (if GetDistance(ts[s[0]], ts[p]) > distance then [s[0]] else []) + Far(ts, s[1..], p, distance)
  }

  /** The filter keeps exactly the tiles farther than `distance` from `p`. */
  lemma {:induction false} FarMembers(ts: seq<Tile>, s: seq<nat>, p: nat, distance: int)
    requires InTiles(ts, s) && p < |ts|
    ensures forall x :: x in Far(ts, s, p, distance) <==> x in s && GetDistance(ts[x], ts[p]) > distance
  {
    if s != [] {
      FarMembers(ts, s[1..], p, distance);
    }
  }

  /** Dropping the picked tile: the pick is at distance 0 from itself. */
  lemma {:induction false} FarDropsPick(ts: seq<Tile>, s: seq<nat>, p: nat, distance: int)
    requires InTiles(ts, s) && p < |ts| && p in s && distance >= 0
    ensures |Far(ts, s, p, distance)| < |s|
  {
    if s[0] == p {
      DistanceZeroIffSameCell(ts[p], ts[p]);
    } else {
      FarDropsPick(ts, s[1..], p, distance);
    }
  }

  /** `availableTiles.any { tile -> tile.baseTerrain == k }`. */
  predicate HasTerrain(ts: seq<Tile>, s: seq<nat>, k: TerrainType)
    requires InTiles(ts, s)
  {
    exists x :: x in s && ts[x].baseTerrain == k
  }

  /** The state of one attempt between two picks: the candidates left and
      the pick count of every registered terrain. */
  datatype Round = Round(avail: seq<nat>, counts: map<TerrainType, int>)

  /** `firstKeyWithTilesLeft`: sorting the terrains by their pick counts and
      taking the first that still has candidates yields a terrain whose
      count is least among the terrains with candidates left. */
  predicate LeastChosen(ts: seq<Tile>, r: Round, k: TerrainType)
    requires InTiles(ts, r.avail)
  {
    && k in r.counts
    && HasTerrain(ts, r.avail, k)
    && forall k' :: k' in r.counts && HasTerrain(ts, r.avail, k') ==> r.counts[k] <= r.counts[k']
  }

  /** The round before the first pick: every candidate, every terrain of
      the candidates registered with no picks. */
  function Start(ts: seq<Tile>, suitable: seq<nat>): (r: Round)
    requires InTiles(ts, suitable)
    ensures r.avail == suitable && r.counts.Keys == TerrainsOf(ts, suitable)
    ensures forall k :: k in r.counts ==> r.counts[k] == 0
  {
    Round(suitable, InitialCounts(ts, suitable))
  }

  /** One loop body after the pick `p`: drop the candidates within
      `distance` of it and count it for its terrain. */
  function Step(ts: seq<Tile>, prev: Round, p: nat, distance: int): (r: Round)
    requires InTiles(ts, prev.avail) && p < |ts| && ts[p].baseTerrain in prev.counts
    ensures InTiles(ts, r.avail)
  {
    var k := ts[p].baseTerrain;
    Round(Far(ts, prev.avail, p, distance), prev.counts[k := prev.counts[k] + 1])
  }

  /** `rounds` is the history of an attempt from `start` that made `picks`
      in order: `rounds[i]` is the state before pick `i`, every pick is a
      candidate left at its round on a registered terrain, and each round
      follows from the one before by `Step`. */
  ghost predicate IsRun(ts: seq<Tile>, start: Round, picks: seq<nat>, rounds: seq<Round>, distance: int) {
    && |rounds| == |picks| + 1
    && rounds[0] == start
    && InTiles(ts, picks)
    && (forall i :: 0 <= i < |rounds| ==> InTiles(ts, rounds[i].avail))
    && (forall i :: 0 <= i < |picks| ==> picks[i] in rounds[i].avail && ts[picks[i]].baseTerrain in rounds[i].counts)
    && (forall i :: 0 <= i < |picks| ==> rounds[i + 1] == Step(ts, rounds[i], picks[i], distance))
  }

  /** Every pick of a run was on a terrain with the least count among those
      with candidates left at its round: the `firstKeyWithTilesLeft` rule. */
  ghost predicate IsBalanced(ts: seq<Tile>, start: Round, picks: seq<nat>, rounds: seq<Round>, distance: int)
    requires IsRun(ts, start, picks, rounds, distance)
  {
    forall i :: 0 <= i < |picks| ==> LeastChosen(ts, rounds[i], ts[picks[i]].baseTerrain)
  }

  /** The picks determine the history: a run is a function of its picks. */
  lemma {:induction false} RunUnique(ts: seq<Tile>, start: Round, picks: seq<nat>, rounds: seq<Round>,
                                     rounds': seq<Round>, distance: int, m: nat)
    requires IsRun(ts, start, picks, rounds, distance) && IsRun(ts, start, picks, rounds', distance)
    requires m < |rounds|
    ensures rounds[..m + 1] == rounds'[..m + 1]
  {
    if m > 0 {
      RunUnique(ts, start, picks, rounds, rounds', distance, m - 1);
      assert rounds[m] == Step(ts, rounds[m - 1], picks[m - 1], distance);
      assert rounds'[m] == Step(ts, rounds'[m - 1], picks[m - 1], distance);
      assert rounds[m - 1] == rounds[..m][m - 1];
      assert rounds'[m - 1] == rounds'[..m][m - 1];
      assert rounds[..m + 1] == rounds[..m] + [rounds[m]];
      assert rounds'[..m + 1] == rounds'[..m] + [rounds'[m]];
    }
  }

  /** Making one more pick, a candidate left on a registered terrain,
      extends the run by one `Step`. */
  lemma RunExtend(ts: seq<Tile>, start: Round, picks: seq<nat>, rounds: seq<Round>, distance: int, p: nat)
    requires IsRun(ts, start, picks, rounds, distance)
    requires p < |ts| && p in rounds[|picks|].avail && ts[p].baseTerrain in rounds[|picks|].counts
    ensures IsRun(ts, start, picks + [p], rounds + [Step(ts, rounds[|picks|], p, distance)], distance)
  {
    var picks', rounds' := picks + [p], rounds + [Step(ts, rounds[|picks|], p, distance)];
    forall i | 0 <= i < |picks'| ensures picks'[i] < |ts| {
      if i < |picks| {
        assert picks'[i] == picks[i];
      }
    }
    forall i | 0 <= i < |picks'|
      ensures picks'[i] in rounds'[i].avail && ts[picks'[i]].baseTerrain in rounds'[i].counts
      ensures rounds'[i + 1] == Step(ts, rounds'[i], picks'[i], distance)
    {
      if i < |picks| {
        assert picks'[i] == picks[i] && rounds'[i] == rounds[i] && rounds'[i + 1] == rounds[i + 1];
      }
    }
  }

  /** The extended run stays balanced when the new pick follows the
      `firstKeyWithTilesLeft` rule. */
  lemma BalancedExtend(ts: seq<Tile>, start: Round, picks: seq<nat>, rounds: seq<Round>, distance: int, p: nat)
    requires IsRun(ts, start, picks, rounds, distance) && IsBalanced(ts, start, picks, rounds, distance)
    requires p < |ts| && p in rounds[|picks|].avail && LeastChosen(ts, rounds[|picks|], ts[p].baseTerrain)
    ensures IsRun(ts, start, picks + [p], rounds + [Step(ts, rounds[|picks|], p, distance)], distance)
    ensures IsBalanced(ts, start, picks + [p], rounds + [Step(ts, rounds[|picks|], p, distance)], distance)
  {
    RunExtend(ts, start, picks, rounds, distance, p);
    var picks', rounds' := picks + [p], rounds + [Step(ts, rounds[|picks|], p, distance)];
    forall i | 0 <= i < |picks'| ensures LeastChosen(ts, rounds'[i], ts[picks'[i]].baseTerrain) {
      if i < |picks| {
        assert picks'[i] == picks[i] && rounds'[i] == rounds[i];
      }
    }
  }

  /** How many of `picks` stand on terrain `k`. */
  function CountTerrain(ts: seq<Tile>, picks: seq<nat>, k: TerrainType): (n: nat)
    requires InTiles(ts, picks)
    ensures n <= |picks|
  {
    if picks == [] then 0
    else CountTerrain(ts, picks[..|picks| - 1], k) + (if ts[picks[|picks| - 1]].baseTerrain == k then 1 else 0)
  }

  /** A step keeps the registered terrains and adds one to the pick's. */
  lemma StepCounts(ts: seq<Tile>, prev: Round, p: nat, distance: int)
    requires InTiles(ts, prev.avail) && p < |ts| && ts[p].baseTerrain in prev.counts
    ensures Step(ts, prev, p, distance).counts.Keys == prev.counts.Keys
    ensures forall k :: k in prev.counts ==>
      Step(ts, prev, p, distance).counts[k] == prev.counts[k] + (if k == ts[p].baseTerrain then 1 else 0)
  {
  }

  /** After a step every candidate left is farther than `distance` from the
      pick and was a candidate before. */
  lemma StepFar(ts: seq<Tile>, prev: Round, p: nat, distance: int)
    requires InTiles(ts, prev.avail) && p < |ts| && ts[p].baseTerrain in prev.counts
    ensures forall x :: x in Step(ts, prev, p, distance).avail ==>
      x in prev.avail && GetDistance(ts[x], ts[p]) > distance
  {
    FarMembers(ts, prev.avail, p, distance);
  }

  /** The front of a list of indices into `ts`. */
  lemma InTilesPrefix(ts: seq<Tile>, s: seq<nat>, m: nat)
    requires InTiles(ts, s) && m <= |s|
    ensures InTiles(ts, s[..m])
  {
    var front := s[..m];
    forall i | 0 <= i < |front| ensures front[i] < |ts| {
      assert front[i] == s[i];
    }
  }

  /** Each round keeps exactly the registered terrains, and each count has
      grown by the picks made on that terrain so far. */
  lemma {:induction false} RunCounts(ts: seq<Tile>, start: Round, picks: seq<nat>, rounds: seq<Round>,
                                     distance: int, m: nat)
    requires IsRun(ts, start, picks, rounds, distance) && m < |rounds|
    ensures InTiles(ts, picks[..m])
    ensures rounds[m].counts.Keys == start.counts.Keys
    ensures forall k :: k in start.counts ==>
      rounds[m].counts[k] == start.counts[k] + CountTerrain(ts, picks[..m], k)
  {
    InTilesPrefix(ts, picks, m);
    if m > 0 {
      RunCounts(ts, start, picks, rounds, distance, m - 1);
      StepCounts(ts, rounds[m - 1], picks[m - 1], distance);
      assert picks[..m][..m - 1] == picks[..m - 1];
    }
  }

  /** The candidates left at every round come from the starting candidates. */
  lemma {:induction false} RunFromStart(ts: seq<Tile>, start: Round, picks: seq<nat>, rounds: seq<Round>,
                                        distance: int, m: nat)
    requires IsRun(ts, start, picks, rounds, distance) && m < |rounds|
    ensures forall x :: x in rounds[m].avail ==> x in start.avail
  {
    if m > 0 {
      RunFromStart(ts, start, picks, rounds, distance, m - 1);
      StepFar(ts, rounds[m - 1], picks[m - 1], distance);
    }
  }

  /** So every pick is one of the starting candidates. */
  lemma PicksFromStart(ts: seq<Tile>, start: Round, picks: seq<nat>, rounds: seq<Round>, distance: int)
    requires IsRun(ts, start, picks, rounds, distance)
    ensures forall i :: 0 <= i < |picks| ==> picks[i] in start.avail
  {
    forall i | 0 <= i < |picks| ensures picks[i] in start.avail {
      RunFromStart(ts, start, picks, rounds, distance, i);
    }
  }

  /** When the start registers every terrain of its candidates, every round
      has a count for every terrain of its candidates. */
  lemma RunRegistered(ts: seq<Tile>, start: Round, picks: seq<nat>, rounds: seq<Round>, distance: int, m: nat)
    requires IsRun(ts, start, picks, rounds, distance) && m < |rounds|
    requires start.counts.Keys == TerrainsOf(ts, start.avail)
    ensures TerrainsOf(ts, rounds[m].avail) <= rounds[m].counts.Keys
  {
    RunCounts(ts, start, picks, rounds, distance, m);
    RunFromStart(ts, start, picks, rounds, distance, m);
  }

  /** Every candidate left at round `m` is farther than `distance` from
      every pick made before it. */
  lemma {:induction false} RunSpread(ts: seq<Tile>, start: Round, picks: seq<nat>, rounds: seq<Round>,
                                     distance: int, m: nat)
    requires IsRun(ts, start, picks, rounds, distance) && m < |rounds|
    ensures forall x, j :: x in rounds[m].avail && 0 <= j < m ==> GetDistance(ts[x], ts[picks[j]]) > distance
  {
    if m > 0 {
      RunSpread(ts, start, picks, rounds, distance, m - 1);
      StepFar(ts, rounds[m - 1], picks[m - 1], distance);
    }
  }

  /** Every later pick is farther than `distance` from every earlier one. */
  lemma PicksSpread(ts: seq<Tile>, start: Round, picks: seq<nat>, rounds: seq<Round>, distance: int)
    requires IsRun(ts, start, picks, rounds, distance)
    ensures forall i, j :: 0 <= i < j < |picks| ==> GetDistance(ts[picks[j]], ts[picks[i]]) > distance
  {
    forall i, j | 0 <= i < j < |picks| ensures GetDistance(ts[picks[j]], ts[picks[i]]) > distance {
      RunSpread(ts, start, picks, rounds, distance, j);
    }
  }

  /** At a non-negative distance each pick uses up at least one candidate,
      so there are never more picks than starting candidates. */
  lemma {:induction false} RunShrinks(ts: seq<Tile>, start: Round, picks: seq<nat>, rounds: seq<Round>,
                                      distance: int, m: nat)
    requires IsRun(ts, start, picks, rounds, distance) && m < |rounds| && distance >= 0
    ensures |rounds[m].avail| + m <= |start.avail|
  {
    if m > 0 {
      RunShrinks(ts, start, picks, rounds, distance, m - 1);
      FarDropsPick(ts, rounds[m - 1].avail, picks[m - 1], distance);
    }
  }

  /** Two picks of a run at a non-negative distance are never the same tile,
      since a tile is at distance 0 from itself. */
  lemma PicksDistinct(ts: seq<Tile>, start: Round, picks: seq<nat>, rounds: seq<Round>, distance: int)
    requires IsRun(ts, start, picks, rounds, distance) && distance >= 0
    ensures NoDuplicates(picks)
  {
    PicksSpread(ts, start, picks, rounds, distance);
    forall i, j | 0 <= i < j < |picks| ensures picks[i] != picks[j] {
      assert GetDistance(ts[picks[j]], ts[picks[i]]) > distance;
    }
  }

  /** A finite non-empty set of keys has one with the least value. */
  lemma {:induction false} LeastKey(s: set<TerrainType>, m: map<TerrainType, int>)
    requires s != {} && s <= m.Keys
    ensures exists k :: k in s && forall k' :: k' in s ==> m[k] <= m[k']
    decreases |s|
  {
    var x :| x in s;
    if s != {x} {
      LeastKey(s - {x}, m);
      var k :| k in s - {x} && forall k' :: k' in s - {x} ==> m[k] <= m[k'];
      if m[x] < m[k] {
        assert forall k' :: k' in s ==> m[x] <= m[k'];
      } else {
        assert forall k' :: k' in s ==> m[k] <= m[k'];
      }
    }
  }

  /** `first { }` never fails: while candidates are left and all their
      terrains were registered, some terrain has the least count. */
  lemma LeastChosenExists(ts: seq<Tile>, r: Round)
    requires InTiles(ts, r.avail) && r.avail != [] && TerrainsOf(ts, r.avail) <= r.counts.Keys
    ensures exists k :: LeastChosen(ts, r, k)
  {
    var withTiles := set k | k in r.counts && HasTerrain(ts, r.avail, k);
    assert ts[r.avail[0]].baseTerrain in withTiles;
    LeastKey(withTiles, r.counts);
    var k :| k in withTiles && forall k' :: k' in withTiles ==> r.counts[k] <= r.counts[k'];
    assert LeastChosen(ts, r, k);
  }

  /** The outcome of one pass of the `downTo` loop at `distance`: a balanced
      run from all the candidates that made at most `numberOfResources` picks
      and stopped early only when no candidate was left. */
  ghost predicate IsAttempt(ts: seq<Tile>, suitable: seq<nat>, numberOfResources: int, distance: int,
                            picks: seq<nat>, rounds: seq<Round>) {
    && InTiles(ts, suitable)
    && IsRun(ts, Start(ts, suitable), picks, rounds, distance)
    && IsBalanced(ts, Start(ts, suitable), picks, rounds, distance)
    && |picks| <= (if numberOfResources < 0 then 0 else numberOfResources)
    && (|picks| == (if numberOfResources < 0 then 0 else numberOfResources) || rounds[|picks|].avail == [])
  }

  /** The distance, picks and history of one pass of the `downTo` loop. */
  datatype Trial = Trial(distance: int, picks: seq<nat>, rounds: seq<Round>)

  /** A pass that placed fewer than `numberOfResources` tiles, so the loop
      went on to the next smaller distance. */
  ghost predicate FellShort(ts: seq<Tile>, suitable: seq<nat>, numberOfResources: int, t: Trial) {
    IsAttempt(ts, suitable, numberOfResources, t.distance, t.picks, t.rounds) && |t.picks| != numberOfResources
  }

  /** What `chooseSpreadOutLocations` returns with: the attempt at `distance`,
      taken because it placed all `numberOfResources` tiles or `distance` is
      1, after one attempt at every larger distance down from
      `initialDistance` fell short (`tried[j]` at `initialDistance - j`). */
  ghost predicate SpreadOutResult(ts: seq<Tile>, suitable: seq<nat>, numberOfResources: int, initialDistance: int,
                                  picks: seq<nat>, distance: int, rounds: seq<Round>, tried: seq<Trial>) {
    && 1 <= distance <= initialDistance
    && IsAttempt(ts, suitable, numberOfResources, distance, picks, rounds)
    && (|picks| == numberOfResources || distance == 1)
    && |tried| == initialDistance - distance
    && Tried(ts, suitable, numberOfResources, initialDistance, tried)
  }

  /** `picks` and `distance` are what some run of `chooseSpreadOutLocations`
      returned: `SpreadOutResult` for a history that is not kept. */
  ghost predicate SpreadOutChoice(ts: seq<Tile>, suitable: seq<nat>, numberOfResources: int, initialDistance: int,
                            picks: seq<nat>, distance: int) {
    exists rounds: seq<Round>, tried: seq<Trial> ::
      SpreadOutResult(ts, suitable, numberOfResources, initialDistance, picks, distance, rounds, tried)
  }

  /** Attempts at the distances from `initialDistance` down, one each, all
      of which fell short: the last of `tried` was at
      `initialDistance - (|tried| - 1)`, the one before it one higher, and so
      on. */
  ghost predicate Tried(ts: seq<Tile>, suitable: seq<nat>, numberOfResources: int, initialDistance: int,
                        tried: seq<Trial>)
    decreases |tried|
  {
    tried != [] ==>
      && Tried(ts, suitable, numberOfResources, initialDistance, tried[..|tried| - 1])
      && tried[|tried| - 1].distance == initialDistance - (|tried| - 1)
      && FellShort(ts, suitable, numberOfResources, tried[|tried| - 1])
  }

  /** Read by position: `tried[j]` is the attempt at `initialDistance - j`,
      and it fell short. */
  lemma {:induction false} TriedAt(ts: seq<Tile>, suitable: seq<nat>, numberOfResources: int,
                                   initialDistance: int, tried: seq<Trial>, j: nat)
    requires Tried(ts, suitable, numberOfResources, initialDistance, tried) && j < |tried|
    ensures tried[j].distance == initialDistance - j && FellShort(ts, suitable, numberOfResources, tried[j])
    decreases |tried|
  {
    var front := tried[..|tried| - 1];
    if j < |front| {
      TriedAt(ts, suitable, numberOfResources, initialDistance, front, j);
      assert tried[j] == front[j];
    }
  }

  /** The picks of an attempt at a non-negative distance are candidates,
      distinct, at most `numberOfResources` and pairwise farther apart than
      the distance. */
  lemma AttemptPicks(ts: seq<Tile>, suitable: seq<nat>, numberOfResources: int, distance: int,
                     picks: seq<nat>, rounds: seq<Round>)
    requires IsAttempt(ts, suitable, numberOfResources, distance, picks, rounds) && distance >= 0
    ensures InTiles(ts, picks) && |picks| <= (if numberOfResources < 0 then 0 else numberOfResources)
    ensures forall i :: 0 <= i < |picks| ==> picks[i] in suitable
    ensures NoDuplicates(picks)
    ensures forall i, j :: 0 <= i < j < |picks| ==> GetDistance(ts[picks[j]], ts[picks[i]]) > distance
  {
    var start := Start(ts, suitable);
    PicksFromStart(ts, start, picks, rounds, distance);
    PicksSpread(ts, start, picks, rounds, distance);
    PicksDistinct(ts, start, picks, rounds, distance);
  }

  /** The picks returned are candidates, distinct, at most
      `numberOfResources` and pairwise farther apart than the distance of the
      attempt that returned them. */
  lemma ResultPicks(ts: seq<Tile>, suitable: seq<nat>, numberOfResources: int, initialDistance: int,
                    picks: seq<nat>, distance: int, rounds: seq<Round>, tried: seq<Trial>)
    requires SpreadOutResult(ts, suitable, numberOfResources, initialDistance, picks, distance, rounds, tried)
    ensures InTiles(ts, picks) && |picks| <= (if numberOfResources < 0 then 0 else numberOfResources)
    ensures forall i :: 0 <= i < |picks| ==> picks[i] in suitable
    ensures NoDuplicates(picks)
    ensures forall i, j :: 0 <= i < j < |picks| ==> GetDistance(ts[picks[j]], ts[picks[i]]) > distance
  {
    AttemptPicks(ts, suitable, numberOfResources, distance, picks, rounds);
  }

  /** The registration loop: every terrain among the candidates gets a
      count of 0. */
  method RegisterTerrains(ts: seq<Tile>, availableTiles: seq<nat>) returns (counts: map<TerrainType, int>)
    requires InTiles(ts, availableTiles)
    ensures counts == Start(ts, availableTiles).counts
  {
    counts := map[];
    var j := 0;
    while j < |availableTiles|
      invariant 0 <= j <= |availableTiles|
      invariant InTiles(ts, availableTiles[..j])
      invariant counts.Keys == TerrainsOf(ts, availableTiles[..j])
      invariant forall k :: k in counts ==> counts[k] == 0
    {
      var t := ts[availableTiles[j]].baseTerrain;
      assert availableTiles[..j + 1] == availableTiles[..j] + [availableTiles[j]];
      if t !in counts {
        counts := counts[t := 0];
      }
      j := j + 1;
    }
    assert availableTiles[..j] == availableTiles;
  }

  /** One pass of the `downTo` loop: register the terrains, then pick up to
      `numberOfResources` tiles, stopping early when no candidate is left.
      `rounds` is the history of the pass. */
  method Attempt(ts: seq<Tile>, numberOfResources: int, suitableTiles: seq<nat>, distance: int)
    returns (chosen: seq<nat>, ghost rounds: seq<Round>)
    requires InTiles(ts, suitableTiles)
    ensures IsAttempt(ts, suitableTiles, numberOfResources, distance, chosen, rounds)
  {
    var availableTiles := suitableTiles;
    var counts := RegisterTerrains(ts, availableTiles);
    ghost var start := Start(ts, suitableTiles);
    chosen := [];
    rounds := [start];
    var i := 1;
    while i <= numberOfResources
      invariant 1 <= i <= (if numberOfResources < 1 then 1 else numberOfResources + 1)
      invariant |chosen| == i - 1
      invariant IsRun(ts, start, chosen, rounds, distance) && IsBalanced(ts, start, chosen, rounds, distance)
      invariant rounds[|chosen|] == Round(availableTiles, counts)
    {
      if availableTiles == [] {
        break;
      }
      chosen, rounds, availableTiles, counts := PickOne(ts, start, chosen, rounds, availableTiles, counts, distance);
      i := i + 1;
    }
  }

  /** The body of the picking loop: take a terrain with the least count
      among those with candidates left, pick one of its candidates, drop the
      candidates near it and count it. */
  method PickOne(ts: seq<Tile>, ghost start: Round, chosen: seq<nat>, ghost rounds: seq<Round>,
                 availableTiles: seq<nat>, counts: map<TerrainType, int>, distance: int)
    returns (chosen': seq<nat>, ghost rounds': seq<Round>, availableTiles': seq<nat>, counts': map<TerrainType, int>)
    requires InTiles(ts, start.avail) && start.counts.Keys == TerrainsOf(ts, start.avail)
    requires IsRun(ts, start, chosen, rounds, distance) && IsBalanced(ts, start, chosen, rounds, distance)
    requires rounds[|chosen|] == Round(availableTiles, counts) && availableTiles != []
    ensures IsRun(ts, start, chosen', rounds', distance) && IsBalanced(ts, start, chosen', rounds', distance)
    ensures rounds'[|chosen'|] == Round(availableTiles', counts')
    ensures |chosen'| == |chosen| + 1 && chosen' == chosen + [chosen'[|chosen|]]
  {
    RunRegistered(ts, start, chosen, rounds, distance, |chosen|);
    var firstKeyWithTilesLeft, chosenTile := ChooseTile(ts, Round(availableTiles, counts));
    BalancedExtend(ts, start, chosen, rounds, distance, chosenTile);
    availableTiles' := Far(ts, availableTiles, chosenTile, distance);
    chosen' := chosen + [chosenTile];
    counts' := counts[firstKeyWithTilesLeft := counts[firstKeyWithTilesLeft] + 1];
    rounds' := rounds + [Step(ts, Round(availableTiles, counts), chosenTile, distance)];
  }

  /** `firstKeyWithTilesLeft` and `chosenTile`: the first terrain, in order
      of pick counts, that has candidates left, and one of its candidates
      (the order among equal counts and the random choice are left open). */
  method ChooseTile(ts: seq<Tile>, r: Round) returns (firstKeyWithTilesLeft: TerrainType, chosenTile: nat)
    requires InTiles(ts, r.avail) && r.avail != [] && TerrainsOf(ts, r.avail) <= r.counts.Keys
    ensures chosenTile in r.avail && ts[chosenTile].baseTerrain == firstKeyWithTilesLeft
    ensures LeastChosen(ts, r, firstKeyWithTilesLeft)
  {
    LeastChosenExists(ts, r);
    firstKeyWithTilesLeft :| LeastChosen(ts, r, firstKeyWithTilesLeft);
    chosenTile :| chosenTile in r.avail && ts[chosenTile].baseTerrain == firstKeyWithTilesLeft;
  }

  /** `chooseSpreadOutLocations`.  `distance` is the `distanceBetweenResources`
      of the attempt that returned and `rounds` its history; `tried[j]` is the
      attempt at `initialDistance - j`, one for every larger distance, each of
      which fell short.  `Failure` is the exception thrown when the `downTo`
      range is empty. */
  method ChooseSpreadOutLocations(ts: seq<Tile>, numberOfResources: int, suitableTiles: seq<nat>,
                                  initialDistance: int)
    returns (r: Result<seq<nat>>, ghost distance: int, ghost rounds: seq<Round>, ghost tried: seq<Trial>)
    requires InTiles(ts, suitableTiles)
    ensures r.Failure? <==> initialDistance < 1
    ensures r.Failure? ==> tried == []
    ensures r.Success? ==>
      SpreadOutResult(ts, suitableTiles, numberOfResources, initialDistance, r.value, distance, rounds, tried)
  {
    var distanceBetweenResources := initialDistance;
    tried := [];
    while distanceBetweenResources >= 1
      invariant distanceBetweenResources <= initialDistance
      invariant distanceBetweenResources >= 1 || distanceBetweenResources == initialDistance
      invariant Tried(ts, suitableTiles, numberOfResources, initialDistance, tried)
      invariant |tried| == initialDistance - distanceBetweenResources
      decreases distanceBetweenResources
    {
      var chosenTiles, done;
      chosenTiles, done, rounds, tried :=
        TryDistance(ts, numberOfResources, suitableTiles, initialDistance, distanceBetweenResources, tried);
      if done {
        distance := distanceBetweenResources;
        return Success(chosenTiles), distance, rounds, tried;
      }
      distanceBetweenResources := distanceBetweenResources - 1;
    }
    distance := initialDistance;
    rounds := [];
    return Failure("Couldn't choose suitable tiles for the requested resources"), distance, rounds, tried;
  }

  /** One pass of the `downTo` loop and its exit test: either the attempt is
      the one returned, or it joins the attempts that fell short. */
  method TryDistance(ts: seq<Tile>, numberOfResources: int, suitableTiles: seq<nat>, initialDistance: int,
                     distanceBetweenResources: int, ghost tried: seq<Trial>)
    returns (chosenTiles: seq<nat>, done: bool, ghost rounds: seq<Round>, ghost tried': seq<Trial>)
    requires InTiles(ts, suitableTiles) && 1 <= distanceBetweenResources <= initialDistance
    requires |tried| == initialDistance - distanceBetweenResources
    requires Tried(ts, suitableTiles, numberOfResources, initialDistance, tried)
    ensures done <==> |chosenTiles| == numberOfResources || distanceBetweenResources == 1
    ensures done ==> tried' == tried
    ensures done ==> SpreadOutResult(ts, suitableTiles, numberOfResources, initialDistance, chosenTiles,
                                     distanceBetweenResources, rounds, tried')
    ensures !done ==> |tried'| == |tried| + 1
    ensures !done ==> Tried(ts, suitableTiles, numberOfResources, initialDistance, tried')
  {
    chosenTiles, rounds := Attempt(ts, numberOfResources, suitableTiles, distanceBetweenResources);
    done := |chosenTiles| == numberOfResources || distanceBetweenResources == 1;
    if done {
      tried' := tried;
    } else {
      var t := Trial(distanceBetweenResources, chosenTiles, rounds);
      tried' := tried + [t];
      assert tried'[..|tried'| - 1] == tried && tried'[|tried'| - 1] == t;
    }
  }
}
