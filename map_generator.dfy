/** The arena: MapGenerator.java.  Walls, entrances, the player spawn, the
    obstacle placement, the spawn point outside an entrance, the player
    push-out correction and the walkable-tile query. */
module Arena {
  import opened Geometry
  import opened JavaInt
  import opened Characters
  import opened Players

  /** The eight fixed wall rectangles around the 900 x 900 panel. */
  const WALLS: seq<Rect> := [
    Rect(0, 0, 375, 75), Rect(0, 0, 75, 375), Rect(525, 0, 375, 75), Rect(825, 0, 75, 375),
    Rect(0, 525, 75, 375), Rect(0, 825, 375, 75), Rect(525, 825, 375, 75), Rect(825, 525, 75, 375)
  ]

  /** The grid the game builds: 10 x 10 tiles of 75 pixels. */
  const GAME_ROWS: int := 10
  const GAME_COLS: int := 10
  const GAME_TILE: int := 75

  /** Obstacles wanted at a level: 5, 10, ..., 25, cycling every five levels. */
  function ObstacleTarget(level: int): (n: int)
    ensures level >= 0 ==> 5 <= n <= 25 && n % 5 == 0
    ensures level >= 0 ==> n == 5 * (level % 5 + 1)
  {
    5 * (JavaRem(level, 5) + 1)
  }

  /** Rows, columns and tile size of a grid, and what they fix. */
  datatype Layout = Layout(rows: int, cols: int, tileSize: int)
  {
    /** The centre tile, where the player spawns. */
    function Spawn(): Rect
    {
      Rect(cols / 2 * tileSize, rows / 2 * tileSize, tileSize, tileSize)
    }

    /** The four two-tile entrances in the middle of the top, bottom, left and right edges. */
    function Entrances(): (es: seq<Rect>)
      ensures |es| == 4
    {
      [Rect((cols / 2 - 1) * tileSize, 0, 2 * tileSize, tileSize),
       Rect((cols / 2 - 1) * tileSize, (rows - 1) * tileSize, 2 * tileSize, tileSize),
       Rect(0, (rows / 2 - 1) * tileSize, tileSize, 2 * tileSize),
       Rect((cols - 1) * tileSize, (rows / 2 - 1) * tileSize, tileSize, 2 * tileSize)]
    }

    /** One of the 2 x 2 tiles around the centre. */
    predicate IsCenterTile(r: int, c: int)
    {
      (r == rows / 2 - 1 || r == rows / 2) && (c == cols / 2 - 1 || c == cols / 2)
    }

    /** isNearEntrance: the tile meets an entrance grown by one tile on every side. */
    predicate NearEntrance(t: Rect)
    {
      exists i :: 0 <= i < |Entrances()| && Intersects(Grown(Entrances()[i], tileSize), t)
    }

    /** Tile (r, c) passes every test of the placement loop except the
        overlap with obstacles already placed. */
    predicate Clear(r: int, c: int)
    {
      var t := Tile(r, c, tileSize);
      !Intersects(t, Spawn()) && !IsCenterTile(r, c) &&
      !AnyIntersects(Entrances(), t) && !NearEntrance(t)
    }

    /** One draw of the placement loop is accepted. */
    predicate Acceptable(r: int, c: int, obstacles: seq<Rect>)
    {
      Clear(r, c) && !AnyIntersects(obstacles, Tile(r, c, tileSize))
    }

    /** A placed obstacle: a clear interior tile. */
    predicate PlacedTile(t: Rect)
    {
      exists r, c :: 1 <= r <= rows - 2 && 1 <= c <= cols - 2 && t == Tile(r, c, tileSize) && Clear(r, c)
    }

    /** What the placement loop guarantees about the obstacle list. */
    predicate ValidObstacles(obstacles: seq<Rect>)
    {
      (forall i :: 0 <= i < |obstacles| ==> PlacedTile(obstacles[i])) &&
      (forall i, j :: 0 <= i < j < |obstacles| ==> !Intersects(obstacles[i], obstacles[j]))
    }

    /** Draws as Random.nextInt(rows - 2) and Random.nextInt(cols - 2) give them. */
    predicate DrawsInRange(draws: seq<(int, int)>)
    {
      forall k :: 0 <= k < |draws| ==> 0 <= draws[k].0 < rows - 2 && 0 <= draws[k].1 < cols - 2
    }
  }

  /** A box grown by `buffer` on every side. */
  function Grown(e: Rect, buffer: int): (g: Rect)
    ensures g.x == e.x - buffer && g.y == e.y - buffer
    ensures g.Right() == e.Right() + buffer && g.Bottom() == e.Bottom() + buffer
  {
    Rect(e.x - buffer, e.y - buffer, e.width + 2 * buffer, e.height + 2 * buffer)
  }

  /** generateObstacles: the obstacle list after the placement loop has
      consumed `draws` (the random tile choices, 0-based before the `+ 1`). */
  function Placed(L: Layout, obstacles: seq<Rect>, target: int, draws: seq<(int, int)>): (r: seq<Rect>)
    ensures |obstacles| <= |r|
    ensures r[..|obstacles|] == obstacles
    ensures |r| <= Max(|obstacles|, target)
    ensures |r| <= |obstacles| + |draws|
    decreases |draws|
  {
    if |obstacles| >= target || |draws| == 0 then obstacles
    else
      var r := draws[0].0 + 1;
      var c := draws[0].1 + 1;
      if L.Acceptable(r, c, obstacles) then
        var next := obstacles + [Tile(r, c, L.tileSize)];
        var res := Placed(L, next, target, draws[1..]);
        assert res[..|obstacles|] == next[..|obstacles|];
        res
      else Placed(L, obstacles, target, draws[1..])
  }

  /** One turn of the placement loop. */
  lemma PlacedStep(L: Layout, obstacles: seq<Rect>, target: int, draws: seq<(int, int)>)
    requires |obstacles| < target && |draws| > 0
    ensures var r := draws[0].0 + 1;
            var c := draws[0].1 + 1;
            Placed(L, obstacles, target, draws) ==
              if L.Acceptable(r, c, obstacles) then Placed(L, obstacles + [Tile(r, c, L.tileSize)], target, draws[1..])
              else Placed(L, obstacles, target, draws[1..])
  {
  }

  /** Placement keeps the obstacle invariant: every obstacle is a clear
      interior tile and no two obstacles overlap. */
  lemma {:induction false} PlacedIsValid(L: Layout, obstacles: seq<Rect>, target: int, draws: seq<(int, int)>)
    requires L.ValidObstacles(obstacles) && L.DrawsInRange(draws)
    ensures L.ValidObstacles(Placed(L, obstacles, target, draws))
    decreases |draws|
  {
    if |obstacles| < target && |draws| > 0 {
      var r := draws[0].0 + 1;
      var c := draws[0].1 + 1;
      assert L.DrawsInRange(draws[1..]) by {
        forall k | 0 <= k < |draws[1..]|
          ensures 0 <= draws[1..][k].0 < L.rows - 2 && 0 <= draws[1..][k].1 < L.cols - 2
        {
          assert draws[1..][k] == draws[k + 1];
        }
      }
      if L.Acceptable(r, c, obstacles) {
        var t := Tile(r, c, L.tileSize);
        var next := obstacles + [t];
        assert L.PlacedTile(t) by {
          assert 1 <= r <= L.rows - 2 && 1 <= c <= L.cols - 2 && t == Tile(r, c, L.tileSize) && L.Clear(r, c);
        }
        forall i, j | 0 <= i < j < |next|
          ensures !Intersects(next[i], next[j])
        {
          if j == |obstacles| {
            assert next[j] == t;
          } else {
            assert next[i] == obstacles[i] && next[j] == obstacles[j];
          }
        }
        assert L.ValidObstacles(next);
        PlacedIsValid(L, next, target, draws[1..]);
      } else {
        PlacedIsValid(L, obstacles, target, draws[1..]);
      }
    }
  }

  /** Running the loop over `d1 + d2` is running it over `d1` and then,
      from the list it left, over `d2`. */
  lemma {:induction false} PlacedConcat(L: Layout, obstacles: seq<Rect>, target: int,
                                        d1: seq<(int, int)>, d2: seq<(int, int)>)
    ensures Placed(L, obstacles, target, d1 + d2) == Placed(L, Placed(L, obstacles, target, d1), target, d2)
    decreases |d1|
  {
    if d1 == [] {
      assert d1 + d2 == d2;
    } else if |obstacles| < target {
      assert (d1 + d2)[0] == d1[0] && (d1 + d2)[1..] == d1[1..] + d2;
      var r := d1[0].0 + 1;
      var c := d1[0].1 + 1;
      if L.Acceptable(r, c, obstacles) {
        PlacedConcat(L, obstacles + [Tile(r, c, L.tileSize)], target, d1[1..], d2);
      } else {
        PlacedConcat(L, obstacles, target, d1[1..], d2);
      }
    }
  }

  /** The loop stops short of the target only for lack of draws: one more
      draw is always tried, and placed exactly when it is acceptable; and an
      acceptable first draw is the next obstacle. */
  lemma {:induction false} PlacedStopsOnlyAtTargetOrOutOfDraws(L: Layout, obstacles: seq<Rect>, target: int,
                                                              draws: seq<(int, int)>, x: (int, int))
    ensures var p := Placed(L, obstacles, target, draws);
            |p| < target ==>
              Placed(L, obstacles, target, draws + [x]) ==
                if L.Acceptable(x.0 + 1, x.1 + 1, p) then p + [Tile(x.0 + 1, x.1 + 1, L.tileSize)] else p
    ensures |obstacles| < target && |draws| > 0 && L.Acceptable(draws[0].0 + 1, draws[0].1 + 1, obstacles) ==>
              var r := Placed(L, obstacles, target, draws);
              |r| > |obstacles| && r[|obstacles|] == Tile(draws[0].0 + 1, draws[0].1 + 1, L.tileSize)
  {
    var p := Placed(L, obstacles, target, draws);
    PlacedConcat(L, obstacles, target, draws, [x]);
    if |p| < target {
      assert [x][1..] == [];
      if L.Acceptable(x.0 + 1, x.1 + 1, p) {
        assert Placed(L, p + [Tile(x.0 + 1, x.1 + 1, L.tileSize)], target, []) == p + [Tile(x.0 + 1, x.1 + 1, L.tileSize)];
      } else {
        assert Placed(L, p, target, []) == p;
      }
    }
    if |obstacles| < target && |draws| > 0 && L.Acceptable(draws[0].0 + 1, draws[0].1 + 1, obstacles) {
      var next := obstacles + [Tile(draws[0].0 + 1, draws[0].1 + 1, L.tileSize)];
      var r := Placed(L, next, target, draws[1..]);
      assert r[..|next|] == next;
      assert r[|obstacles|] == r[..|next|][|obstacles|];
    }
  }

  /** block: push the player box b out of obstacle o along the axis of smaller overlap. */
  function BlockedBox(b: Rect, o: Rect): (r: Rect)
    ensures !Intersects(b, o) ==> r == b
    ensures r.width == b.width && r.height == b.height
    ensures Intersects(b, o) ==> (r.x == b.x) != (r.y == b.y)
    ensures Intersects(b, o) ==>
              (r.x - b.x) + (r.y - b.y) == Min(OverlapX(b, o), OverlapY(b, o)) ||
              (b.x - r.x) + (b.y - r.y) == Min(OverlapX(b, o), OverlapY(b, o))
    ensures r.x != b.x ==> OverlapX(b, o) < OverlapY(b, o)
    ensures r.y != b.y ==> OverlapY(b, o) <= OverlapX(b, o)
    ensures r.x < b.x ==> b.x < o.x
    ensures r.x > b.x ==> o.x <= b.x
    ensures r.y < b.y ==> b.y < o.y
    ensures r.y > b.y ==> o.y <= b.y
    ensures r.x != b.x && ((b.x < o.x && b.Right() <= o.Right()) || (o.x <= b.x && o.Right() <= b.Right())) ==>
              !Intersects(r, o)
    ensures r.y != b.y && ((b.y < o.y && b.Bottom() <= o.Bottom()) || (o.y <= b.y && o.Bottom() <= b.Bottom())) ==>
              !Intersects(r, o)
  {
    if !Intersects(b, o) then b
    else
      var ox := OverlapX(b, o);
      var oy := OverlapY(b, o);
      if ox < oy then
        (if b.x < o.x then b.Translate(-ox, 0) else b.Translate(ox, 0))
      else
        (if b.y < o.y then b.Translate(0, -oy) else b.Translate(0, oy))
  }

  /** block applied to each box of rs in turn. */
  function BlockAll(b: Rect, rs: seq<Rect>): (r: Rect)
    ensures r.width == b.width && r.height == b.height
    ensures (forall i :: 0 <= i < |rs| ==> !Intersects(b, rs[i])) ==> r == b
  {
    if |rs| == 0 then b
    else
      var prev := BlockAll(b, rs[..|rs| - 1]);
      assert forall i :: 0 <= i < |rs| - 1 ==> rs[..|rs| - 1][i] == rs[i];
      BlockedBox(prev, rs[|rs| - 1])
  }

  /** The obstacles blockPlayer does not skip: those meeting no entrance. */
  function NonEntrance(entrances: seq<Rect>, rs: seq<Rect>): (r: seq<Rect>)
    ensures |r| <= |rs|
    ensures forall i :: 0 <= i < |r| ==> !AnyIntersects(entrances, r[i])
  {
    if |rs| == 0 then []
    else NonEntrance(entrances, rs[..|rs| - 1]) +
         (if AnyIntersects(entrances, rs[|rs| - 1]) then [] else [rs[|rs| - 1]])
  }

  /** Blocking against the non-entrance boxes of rs[..i + 1] is blocking
      against those of rs[..i], then against rs[i] unless it is an entrance. */
  lemma BlockNonEntranceStep(b: Rect, entrances: seq<Rect>, rs: seq<Rect>, i: int)
    requires 0 <= i < |rs|
    ensures BlockAll(b, NonEntrance(entrances, rs[..i + 1])) ==
            if AnyIntersects(entrances, rs[i]) then BlockAll(b, NonEntrance(entrances, rs[..i]))
            else BlockedBox(BlockAll(b, NonEntrance(entrances, rs[..i])), rs[i])
  {
    var s := rs[..i + 1];
    assert s[..|s| - 1] == rs[..i] && s[|s| - 1] == rs[i];
    var ne := NonEntrance(entrances, rs[..i]);
    if !AnyIntersects(entrances, rs[i]) {
      assert NonEntrance(entrances, s) == ne + [rs[i]];
      BlockAllSnoc(b, ne, rs[i]);
    } else {
      assert NonEntrance(entrances, s) == ne + [];
      assert ne + [] == ne;
    }
  }

  lemma BlockAllSnoc(b: Rect, rs: seq<Rect>, r: Rect)
    ensures BlockAll(b, rs + [r]) == BlockedBox(BlockAll(b, rs), r)
  {
    assert (rs + [r])[..|rs|] == rs;
  }

  /** The obstacle loop starts from nothing blocked and ends with every obstacle seen. */
  lemma BlockNonEntranceEnds(b: Rect, entrances: seq<Rect>, rs: seq<Rect>)
    ensures BlockAll(b, NonEntrance(entrances, rs[..0])) == b
    ensures rs[..|rs|] == rs
  {
  }

  /** On a generated map the entrance test of blockPlayer never skips an obstacle. */
  lemma {:induction false} NonEntranceOfValid(L: Layout, obstacles: seq<Rect>)
    requires L.ValidObstacles(obstacles)
    ensures NonEntrance(L.Entrances(), obstacles) == obstacles
  {
    if |obstacles| > 0 {
      var init := obstacles[..|obstacles| - 1];
      assert L.ValidObstacles(init) by {
        assert forall i :: 0 <= i < |init| ==> init[i] == obstacles[i];
      }
      NonEntranceOfValid(L, init);
      assert L.PlacedTile(obstacles[|obstacles| - 1]);
      assert init + [obstacles[|obstacles| - 1]] == obstacles;
    }
  }

  /** Walkable: the tile meets none of spawn, obstacles, entrances and walls. */
  predicate Walkable(L: Layout, obstacles: seq<Rect>, walls: seq<Rect>, r: int, c: int)
  {
    var t := Tile(r, c, L.tileSize);
    !Intersects(t, L.Spawn()) && !AnyIntersects(obstacles, t) &&
    !AnyIntersects(L.Entrances(), t) && !AnyIntersects(walls, t)
  }

  /** Walkable tiles of row r with column below c, left to right. */
  function WalkableRow(L: Layout, obstacles: seq<Rect>, walls: seq<Rect>, r: int, c: int): seq<Rect>
    decreases c
  {
    if c <= 0 then []
    else WalkableRow(L, obstacles, walls, r, c - 1) +
         (if Walkable(L, obstacles, walls, r, c - 1) then [Tile(r, c - 1, L.tileSize)] else [])
  }

  /** Walkable tiles of the rows below r, in row-major order. */
  function WalkableRows(L: Layout, obstacles: seq<Rect>, walls: seq<Rect>, r: int): seq<Rect>
    decreases r
  {
    if r <= 0 then []
    else WalkableRows(L, obstacles, walls, r - 1) + WalkableRow(L, obstacles, walls, r - 1, L.cols)
  }

  lemma {:induction false} WalkableRowMembers(L: Layout, obstacles: seq<Rect>, walls: seq<Rect>, r: int, c: int, t: Rect)
    ensures t in WalkableRow(L, obstacles, walls, r, c) <==>
            exists k :: 0 <= k < c && t == Tile(r, k, L.tileSize) && Walkable(L, obstacles, walls, r, k)
    decreases c
  {
    if c > 0 {
      WalkableRowMembers(L, obstacles, walls, r, c - 1, t);
    }
  }

  /** getWalkableTiles lists exactly the grid tiles that are walkable. */
  lemma {:induction false} WalkableRowsMembers(L: Layout, obstacles: seq<Rect>, walls: seq<Rect>, r: int, t: Rect)
    ensures t in WalkableRows(L, obstacles, walls, r) <==>
            exists i, k :: 0 <= i < r && 0 <= k < L.cols && t == Tile(i, k, L.tileSize) &&
                           Walkable(L, obstacles, walls, i, k)
    decreases r
  {
    if r > 0 {
      WalkableRowsMembers(L, obstacles, walls, r - 1, t);
      WalkableRowMembers(L, obstacles, walls, r - 1, L.cols, t);
    }
  }

  /** On the game's 10 x 10 grid of 75-pixel tiles no interior tile meets a wall. */
  lemma InteriorTilesMissWalls(r: int, c: int)
    requires 1 <= r <= GAME_ROWS - 2 && 1 <= c <= GAME_COLS - 2
    ensures !AnyIntersects(WALLS, Tile(r, c, GAME_TILE))
  {
  }

  /** The loop of isEntrance, isNearEntrance and the blocked tests. */
  method AnyHit(rs: seq<Rect>, t: Rect) returns (hit: bool)
    ensures hit <==> AnyIntersects(rs, t)
  {
    for i := 0 to |rs|
      invariant forall j :: 0 <= j < i ==> !Intersects(rs[j], t)
    {
      if Intersects(rs[i], t) {
        return true;
      }
    }
    return false;
  }

  /** MapGenerator.java.  `draws` stands for the random tile choices. */
  class MapGenerator {
    const rows: int
    const cols: int
    const tileSize: int
    var level: int
    const playerSpawn: Rect
    var obstacles: seq<Rect>
    const entrances: seq<Rect>
    const walls: seq<Rect>

    function Lay(): Layout
    {
      Layout(rows, cols, tileSize)
    }

    /** The fixed parts of the map: walls, spawn and entrances. */
    predicate Fixed()
    {
      walls == WALLS && playerSpawn == Lay().Spawn() && entrances == Lay().Entrances()
    }

    /** The generated map: its fixed parts and valid obstacles. */
    ghost predicate Valid()
      reads this
    {
      Fixed() && Lay().ValidObstacles(obstacles)
    }

    /** new MapGenerator(rows, cols, tileSize, level) */
    constructor (rows: int, cols: int, tileSize: int, level: int, draws: seq<(int, int)>)
      requires Layout(rows, cols, tileSize).DrawsInRange(draws)
      ensures Valid()
      ensures this.rows == rows && this.cols == cols && this.tileSize == tileSize && this.level == level
      ensures obstacles == Placed(Lay(), [], ObstacleTarget(level), draws)
    {
      this.rows, this.cols, this.tileSize, this.level := rows, cols, tileSize, level;
      walls := WALLS;
      playerSpawn := Rect(cols / 2 * tileSize, rows / 2 * tileSize, tileSize, tileSize);
      entrances := Layout(rows, cols, tileSize).Entrances();
      obstacles := [];
      new;
      GenerateObstacles(draws);
    }

    /** generateObstacles: try the draws in order until the target is met. */
    method GenerateObstacles(draws: seq<(int, int)>)
      requires Valid() && Lay().DrawsInRange(draws)
      modifies this`obstacles
      ensures Valid()
      ensures obstacles == Placed(Lay(), old(obstacles), ObstacleTarget(level), draws)
    {
      var maxObstacles := 5 * (JavaRem(level, 5) + 1);
      ghost var start := obstacles;
      var k := 0;
      while |obstacles| < maxObstacles && k < |draws|
        invariant 0 <= k <= |draws|
        invariant Placed(Lay(), obstacles, maxObstacles, draws[k..]) == Placed(Lay(), start, maxObstacles, draws)
      {
        assert draws[k..][1..] == draws[k + 1..];
        PlacedStep(Lay(), obstacles, maxObstacles, draws[k..]);
        var r := draws[k].0 + 1;
        var c := draws[k].1 + 1;
        k := k + 1;
        var accepted := Accepts(r, c);
        if !accepted {
          continue;
        }
        obstacles := obstacles + [Rect(c * tileSize, r * tileSize, tileSize, tileSize)];
      }
      PlacedIsValid(Lay(), start, maxObstacles, draws);
    }

    /** The tests of one turn of the placement loop, in source order: spawn
        and centre tiles, then entrances and their buffers, then obstacles. */
    method Accepts(r: int, c: int) returns (ok: bool)
      requires Fixed()
      ensures ok <==> Lay().Acceptable(r, c, obstacles)
    {
      var centerRow1, centerRow2 := rows / 2 - 1, rows / 2;
      var centerCol1, centerCol2 := cols / 2 - 1, cols / 2;
      var rect := Tile(r, c, tileSize);
      var isCenterTile := (r == centerRow1 || r == centerRow2) && (c == centerCol1 || c == centerCol2);
      if Intersects(rect, playerSpawn) || isCenterTile {
        return false;
      }
      var isEntranceOverlap := AnyHit(entrances, rect);
      var near := IsNearEntrance(rect);
      if isEntranceOverlap || near {
        return false;
      }
      var isObstacleOverlap := AnyHit(obstacles, rect);
      if isObstacleOverlap {
        return false;
      }
      return true;
    }

    /** isNearEntrance */
    method IsNearEntrance(tile: Rect) returns (near: bool)
      requires Fixed()
      ensures near <==> Lay().NearEntrance(tile)
    {
      var buffer := tileSize;
      for i := 0 to |entrances|
        invariant forall j :: 0 <= j < i ==> !Intersects(Grown(entrances[j], tileSize), tile)
      {
        var e := entrances[i];
        var extended := Rect(e.x - buffer, e.y - buffer, e.width + 2 * buffer, e.height + 2 * buffer);
        if Intersects(extended, tile) {
          return true;
        }
      }
      return false;
    }

    /** getClearSpawnPoint(i, s): an s x s box just outside entrance i,
        centred along the entrance. */
    function GetClearSpawnPoint(i: int, s: int): (r: Rect)
      requires 0 <= i < |entrances|
      ensures r.width == s && r.height == s
      ensures var e := entrances[i];
              (i == 0 ==> r.Bottom() == e.y && r.x == e.x + JavaHalf(e.width - s)) &&
              (i == 1 ==> r.y == e.Bottom() && r.x == e.x + JavaHalf(e.width - s)) &&
              (i == 2 ==> r.Right() == e.x && r.y == e.y + JavaHalf(e.height - s)) &&
              (i == 3 ==> r.x == e.Right() && r.y == e.y + JavaHalf(e.height - s)) &&
              (i >= 4 ==> r.x == e.x && r.y == e.y)
      ensures 0 <= i < 4 ==> !Intersects(r, entrances[i])
      ensures 0 <= i < 2 && s <= entrances[i].width ==>
                entrances[i].x <= r.x && r.Right() <= entrances[i].Right() &&
                (r.x - entrances[i].x) - (entrances[i].Right() - r.Right()) in {-1, 0}
      ensures 2 <= i < 4 && s <= entrances[i].height ==>
                entrances[i].y <= r.y && r.Bottom() <= entrances[i].Bottom() &&
                (r.y - entrances[i].y) - (entrances[i].Bottom() - r.Bottom()) in {-1, 0}
    {
      var e := entrances[i];
      if i == 0 then Rect(e.x + JavaHalf(e.width - s), e.y - s, s, s)
      else if i == 1 then Rect(e.x + JavaHalf(e.width - s), e.y + e.height, s, s)
      else if i == 2 then Rect(e.x - s, e.y + JavaHalf(e.height - s), s, s)
      else if i == 3 then Rect(e.x + e.width, e.y + JavaHalf(e.height - s), s, s)
      else Rect(e.x, e.y, s, s)
    }

    /** isEntrance */
    predicate IsEntrance(tile: Rect)
      ensures IsEntrance(tile) <==> exists i :: 0 <= i < |entrances| && Intersects(entrances[i], tile)
    {
      FirstIntersecting(entrances, tile) >= 0
    }

    /** block(p, obstacle) */
    method Block(p: Player, obstacle: Rect)
      modifies p.body`x, p.body`y
      ensures p.body.Box() == BlockedBox(old(p.body.Box()), obstacle)
    {
      var b := p.body;
      if !Intersects(b.Box(), obstacle) {
        return;
      }
      var overlapX := Min(b.x + b.width, obstacle.x + obstacle.width) - Max(b.x, obstacle.x);
      var overlapY := Min(b.y + b.height, obstacle.y + obstacle.height) - Max(b.y, obstacle.y);
      if overlapX < overlapY {
        if b.x < obstacle.x {
          b.x := b.x - overlapX;
        } else {
          b.x := b.x + overlapX;
        }
      } else {
        if b.y < obstacle.y {
          b.y := b.y - overlapY;
        } else {
          b.y := b.y + overlapY;
        }
      }
    }

    /** blockPlayer(p, direction): every wall, then every obstacle that is not
        an entrance tile.  The direction takes no part. */
    method BlockPlayer(p: Player, direction: int)
      modifies p.body`x, p.body`y
      ensures p.body.Box() == BlockAll(BlockAll(old(p.body.Box()), walls), NonEntrance(entrances, obstacles))
    {
      BlockEach(p, walls);
      BlockNonEntrance(p);
    }

    /** The wall loop of blockPlayer. */
    method BlockEach(p: Player, rs: seq<Rect>)
      modifies p.body`x, p.body`y
      ensures p.body.Box() == BlockAll(old(p.body.Box()), rs)
    {
      ghost var b0 := p.body.Box();
      BlockNonEntranceEnds(b0, [], rs);
      for i := 0 to |rs|
        invariant p.body.Box() == BlockAll(b0, rs[..i])
      {
        assert rs[..i + 1] == rs[..i] + [rs[i]];
        BlockAllSnoc(b0, rs[..i], rs[i]);
        Block(p, rs[i]);
      }
    }

    /** The obstacle loop of blockPlayer, which skips entrance tiles. */
    method BlockNonEntrance(p: Player)
      modifies p.body`x, p.body`y
      ensures p.body.Box() == BlockAll(old(p.body.Box()), NonEntrance(entrances, obstacles))
    {
      ghost var b1 := p.body.Box();
      BlockNonEntranceEnds(b1, entrances, obstacles);
      for i := 0 to |obstacles|
        invariant p.body.Box() == BlockAll(b1, NonEntrance(entrances, obstacles[..i]))
      {
        BlockNonEntranceStep(b1, entrances, obstacles, i);
        var skip := IsEntrance(obstacles[i]);
        if skip {
          continue;
        }
        Block(p, obstacles[i]);
      }
    }

    /** updateLevel: the next generation's target changes, the obstacles do not. */
    method UpdateLevel(lvl: int)
      modifies this`level
      ensures level == lvl
    {
      level := lvl;
    }

    /** getWalkableTiles */
    method GetWalkableTiles() returns (tiles: seq<Rect>)
      requires Fixed()
      ensures tiles == WalkableRows(Lay(), obstacles, walls, rows)
    {
      tiles := [];
      var r := 0;
      while r < rows
        invariant 0 <= r <= Max(rows, 0)
        invariant tiles == WalkableRows(Lay(), obstacles, walls, r)
      {
        var c := 0;
        ghost var before := tiles;
        while c < cols
          invariant 0 <= c <= Max(cols, 0)
          invariant tiles == before + WalkableRow(Lay(), obstacles, walls, r, c)
        {
          var tile := Rect(c * tileSize, r * tileSize, tileSize, tileSize);
          var blocked := false;
          if Intersects(tile, playerSpawn) {
            blocked := true;
          }
          if !blocked {
            blocked := AnyHit(obstacles, tile);
          }
          if !blocked {
            blocked := AnyHit(entrances, tile);
          }
          if !blocked {
            blocked := AnyHit(walls, tile);
          }
          if !blocked {
            tiles := tiles + [tile];
          }
          c := c + 1;
        }
        assert c == cols || cols <= 0;
        r := r + 1;
      }
    }
  }
}
