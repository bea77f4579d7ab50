/** Enemies: Enemy.java with its two kinds, BasicEnemy.java and BossEnemy.java. */
module Enemies {
  import opened Geometry
  import opened Characters
  import opened JavaInt

  /** Health and shield of a new basic enemy. */
  const BASIC_HEALTH: int := 5
  const BASIC_SHIELD: int := 5

  /** The panel the funnel rules are written for, and the corridor band
      (375, 450) that leads through the entrances. */
  const FIELD_SIZE: int := 900
  const BAND_LOW: int := 375
  const BAND_HIGH: int := 450

  datatype Kind = Basic | Boss(level: int)

  /** Boss stats grow with its level: health 10 + 3L, shield argument 10 + 2L. */
  function BossHealth(level: int): int { 10 + 3 * level }
  function BossShield(level: int): int { 10 + 2 * level }

  /** The boss's step size (int)(1.5 + 0.1 * level), exact on non-negative levels. */
  function BossSpeed(level: int): (s: int)
    ensures level >= 0 ==> 10 * s <= 15 + level < 10 * s + 10
  {
    (15 + level) / 10
  }

  /** The moveVector/syncPosition pair of the enemy's position type, which is
      not part of this model: a step from (x, y) by a requested displacement
      (dx, dy) to a new top-left corner. */
  type StepFn = (int, int, int, int) -> (int, int)

  /** The direct `x += dx; y += dy` step that the boss uses. */
  function Translation(x: int, y: int, dx: int, dy: int): (int, int)
  {
    (x + dx, y + dy)
  }

  /** collides(map): the box intersects some obstacle or some wall. */
  predicate Collides(box: Rect, obstacles: seq<Rect>, walls: seq<Rect>)
  {
    AnyIntersects(obstacles, box) || AnyIntersects(walls, box)
  }

  /** What one tick of steering asks for: a single-axis funnel move toward
      the corridor or entrance, or direct pursuit of the player. */
  datatype Steer = Funnel(vertical: bool, delta: int) | Pursue

  /** The four funnel rules of moveTowardPlayer, tried in source order. */
  function FunnelRequest(x: int, y: int, speed: int): (r: Steer)
    ensures 0 <= x <= FIELD_SIZE && 0 <= y <= FIELD_SIZE ==> r.Pursue?
    ensures r.Funnel? ==> r.delta == speed || r.delta == -speed
    ensures r.Funnel? && r.vertical ==> (x < 0 || x > FIELD_SIZE || BAND_LOW < x < BAND_HIGH)
    ensures r.Funnel? && !r.vertical ==> (y < 0 || y > FIELD_SIZE || BAND_LOW < y < BAND_HIGH)
    ensures (x < 0 || x > FIELD_SIZE) && (y < BAND_LOW || y > BAND_HIGH) ==>
              r == Funnel(true, if y < BAND_LOW then speed else -speed)
    ensures r.Pursue? && (x < 0 || x > FIELD_SIZE) ==> y == BAND_LOW || y == BAND_HIGH
  {
    var xOut := x < 0 || x > FIELD_SIZE;
    var yOut := y < 0 || y > FIELD_SIZE;
    if xOut && (y < BAND_LOW || y > BAND_HIGH) then
      Funnel(true, if y < BAND_LOW then speed else -speed)
    else if yOut && (x < BAND_LOW || x > BAND_HIGH) then
      Funnel(false, if x < BAND_LOW then speed else -speed)
    else if yOut && (BAND_LOW < x < BAND_HIGH) then
      Funnel(true, if y < 0 then speed else -speed)
    else if xOut && (BAND_LOW < y < BAND_HIGH) then
      Funnel(false, if x < 0 then speed else -speed)
    else
      Pursue
  }

  /** Where an enemy is and how it is drawn. */
  datatype Pose = Pose(x: int, y: int, facing: int, moving: bool)

  /** changeDirection: facing follows the net displacement, horizontal change
      first; with no displacement it faces down and stops moving. */
  function ChangeDirection(o: Pose, nx: int, ny: int): (r: Pose)
    ensures r.x == nx && r.y == ny
    ensures nx > o.x ==> r.facing == RIGHT
    ensures nx < o.x ==> r.facing == LEFT
    ensures nx == o.x && ny > o.y ==> r.facing == DOWN
    ensures nx == o.x && ny < o.y ==> r.facing == UP
    ensures nx == o.x && ny == o.y ==> r.facing == DOWN && !r.moving
    ensures (nx != o.x || ny != o.y) ==> r.moving == o.moving
  {
    if nx > o.x then Pose(nx, ny, RIGHT, o.moving)
    else if nx < o.x then Pose(nx, ny, LEFT, o.moving)
    else if ny > o.y then Pose(nx, ny, DOWN, o.moving)
    else if ny < o.y then Pose(nx, ny, UP, o.moving)
    else Pose(nx, ny, DOWN, false)
  }

  /** Facing after a funnel move: only the requested axis is looked at. */
  function FunnelFacing(o: Pose, vertical: bool, nx: int, ny: int): (r: Pose)
    ensures r.x == nx && r.y == ny
    ensures vertical ==> (r.facing == (if ny < o.y then UP else DOWN)) && (r.moving == (o.moving && ny != o.y))
    ensures !vertical ==> (r.facing == (if nx > o.x then RIGHT else if nx < o.x then LEFT else DOWN)) &&
                          (r.moving == (o.moving && nx != o.x))
  {
    if vertical then
      (if ny > o.y then Pose(nx, ny, DOWN, o.moving)
       else if ny < o.y then Pose(nx, ny, UP, o.moving)
       else Pose(nx, ny, DOWN, false))
    else
      (if nx > o.x then Pose(nx, ny, RIGHT, o.moving)
       else if nx < o.x then Pose(nx, ny, LEFT, o.moving)
       else Pose(nx, ny, DOWN, false))
  }

  /** Per-axis retry speed: speed toward the player along one axis, 0 when aligned. */
  function AxisSpeed(d: int, speed: int): int
  {
    if d == 0 then 0 else if d < 0 then -speed else speed
  }

  /** The pursuit move: the diagonal (mx, my) first; if that box collides,
      back to the start, then the x-only step (undone alone if it collides),
      then the y-only step (undone alone if it collides). */
  function PursuitPosition(ox: int, oy: int, w: int, h: int, mx: int, my: int, sx: int, sy: int,
                           step: StepFn, obstacles: seq<Rect>, walls: seq<Rect>): (r: (int, int))
    ensures !Collides(Rect(step(ox, oy, mx, my).0, step(ox, oy, mx, my).1, w, h), obstacles, walls) ==>
              r == step(ox, oy, mx, my)
    ensures Collides(Rect(step(ox, oy, mx, my).0, step(ox, oy, mx, my).1, w, h), obstacles, walls) ==>
              var a := step(ox, oy, sx, 0);
              var b := step(if Collides(Rect(a.0, a.1, w, h), obstacles, walls) then ox else a.0, a.1, 0, sy);
              r.0 == b.0 && r.1 == (if Collides(Rect(b.0, b.1, w, h), obstacles, walls) then oy else b.1)
    ensures Collides(Rect(r.0, r.1, w, h), obstacles, walls) ==> r.1 == oy
  {
    var d := step(ox, oy, mx, my);
    if !Collides(Rect(d.0, d.1, w, h), obstacles, walls) then d
    else
      var a := step(ox, oy, sx, 0);
      var x1 := if Collides(Rect(a.0, a.1, w, h), obstacles, walls) then ox else a.0;
      var b := step(x1, a.1, 0, sy);
      (b.0, if Collides(Rect(b.0, b.1, w, h), obstacles, walls) then oy else b.1)
  }

  /** With the boss's direct step the pursuit never ends inside geometry
      unless it ends where it started, and the x coordinate only changes when
      the box at (new x, old y) is clear. */
  lemma {:induction false} PursuitByTranslationIsSafe(ox: int, oy: int, w: int, h: int, mx: int, my: int,
                                                    sx: int, sy: int, obstacles: seq<Rect>, walls: seq<Rect>)
    ensures var r := PursuitPosition(ox, oy, w, h, mx, my, sx, sy, Translation, obstacles, walls);
            (r == (ox, oy) || !Collides(Rect(r.0, r.1, w, h), obstacles, walls)) &&
            (Collides(Rect(ox + mx, oy + my, w, h), obstacles, walls) && r.0 != ox ==>
               !Collides(Rect(r.0, oy, w, h), obstacles, walls))
  {
    var d := Translation(ox, oy, mx, my);
    if Collides(Rect(d.0, d.1, w, h), obstacles, walls) {
      var a := Translation(ox, oy, sx, 0);
      var x1 := if Collides(Rect(a.0, a.1, w, h), obstacles, walls) then ox else a.0;
      assert a == (ox + sx, oy);
      var b := Translation(x1, a.1, 0, sy);
      assert b == (x1, oy + sy);
      assert PursuitPosition(ox, oy, w, h, mx, my, sx, sy, Translation, obstacles, walls).0 == x1;
    }
  }

  /** One tick of BasicEnemy.moveTowardPlayer, from pose o toward player box p.
      `diag` is the unit vector toward the player scaled by speed. */
  function BasicSteer(o: Pose, w: int, h: int, p: Rect, speed: int, diag: (int, int),
                      step: StepFn, obstacles: seq<Rect>, walls: seq<Rect>): (r: Pose)
    ensures FunnelRequest(o.x, o.y, speed).Pursue? && p.x == o.x && p.y == o.y ==> r == o
    ensures FunnelRequest(o.x, o.y, speed).Pursue? && (p.x != o.x || p.y != o.y) ==>
              r.moving == (r.x != o.x || r.y != o.y)
  {
    match FunnelRequest(o.x, o.y, speed)
    case Funnel(vertical, delta) =>
      var n := if vertical then step(o.x, o.y, 0, delta) else step(o.x, o.y, delta, 0);
      FunnelFacing(o, vertical, n.0, n.1)
    case Pursue =>
      var dx := p.x - o.x;
      var dy := p.y - o.y;
      if dx == 0 && dy == 0 then o
      else
        var n := PursuitPosition(o.x, o.y, w, h, diag.0, diag.1, AxisSpeed(dx, speed), AxisSpeed(dy, speed),
                                 step, obstacles, walls);
        ChangeDirection(o.(moving := true), n.0, n.1)
  }

  /** One tick of BossEnemy.moveTowardPlayer.  The funnel moves are direct
      and unchecked; pursuit uses the direct step and ends by setting the
      moving flag from the net displacement. */
  function BossSteer(o: Pose, w: int, h: int, p: Rect, speed: int, diag: (int, int),
                     obstacles: seq<Rect>, walls: seq<Rect>): (r: Pose)
    ensures FunnelRequest(o.x, o.y, speed).Funnel? ==>
              var f := FunnelRequest(o.x, o.y, speed);
              (f.vertical ==> r.x == o.x && r.y == o.y + f.delta) &&
              (!f.vertical ==> r.y == o.y && r.x == o.x + f.delta)
    ensures FunnelRequest(o.x, o.y, speed).Pursue? && p.x == o.x && p.y == o.y ==> r == o
    ensures FunnelRequest(o.x, o.y, speed).Pursue? && (p.x != o.x || p.y != o.y) ==>
              r.moving == (r.x != o.x || r.y != o.y) &&
              (r.x == o.x && r.y == o.y ==> r.facing == o.facing)
  {
    match FunnelRequest(o.x, o.y, speed)
    case Funnel(vertical, delta) =>
      var n := if vertical then Translation(o.x, o.y, 0, delta) else Translation(o.x, o.y, delta, 0);
      FunnelFacing(o, vertical, n.0, n.1)
    case Pursue =>
      var dx := p.x - o.x;
      var dy := p.y - o.y;
      if dx == 0 && dy == 0 then o
      else
        var n := PursuitPosition(o.x, o.y, w, h, diag.0, diag.1, AxisSpeed(dx, speed), AxisSpeed(dy, speed),
                                 Translation, obstacles, walls);
        if n.0 != o.x || n.1 != o.y then ChangeDirection(o, n.0, n.1).(moving := true)
        else o.(moving := false)
  }

  /** After a boss's pursuit tick the box is back where it started or clear of
      every obstacle and wall. */
  lemma {:induction false} BossPursuitIsSafe(o: Pose, w: int, h: int, p: Rect, speed: int, diag: (int, int),
                                             obstacles: seq<Rect>, walls: seq<Rect>)
    requires FunnelRequest(o.x, o.y, speed).Pursue?
    ensures var r := BossSteer(o, w, h, p, speed, diag, obstacles, walls);
            (r.x == o.x && r.y == o.y) || !Collides(Rect(r.x, r.y, w, h), obstacles, walls)
    ensures var r := BossSteer(o, w, h, p, speed, diag, obstacles, walls);
            Collides(Rect(o.x + diag.0, o.y + diag.1, w, h), obstacles, walls) && r.x != o.x ==>
              !Collides(Rect(r.x, o.y, w, h), obstacles, walls)
  {
    if p.x != o.x || p.y != o.y {
      PursuitByTranslationIsSafe(o.x, o.y, w, h, diag.0, diag.1, AxisSpeed(p.x - o.x, speed),
                                 AxisSpeed(p.y - o.y, speed), obstacles, walls);
    }
  }

  /** Enemy.java (fields num and its own, shadowing, health) over the
      Character.java state in `body`.  `kind` selects the BasicEnemy or
      BossEnemy behaviour; `speed` is the integer step size. */
  class Enemy {
    const body: Character
    var health: int
    const num: int
    const kind: Kind
    const speed: int

    function Box(): Rect
      reads body`x, body`y
    {
      body.Box()
    }

    function GetPose(): Pose
      reads body`x, body`y, body`directionFacing, body`moving
    {
      Pose(body.x, body.y, body.directionFacing, body.moving)
    }

    /** new BasicEnemy(x, y, width, height, speed, num, panW, panH) */
    constructor Basic(x: int, y: int, width: int, height: int, speed: int, num: int)
      ensures fresh(body)
      ensures Box() == Rect(x, y, width, height)
      ensures health == BASIC_HEALTH && body.moving && body.directionFacing == DOWN && body.frame == 0
      ensures body.shield == BASIC_SHIELD && body.speed == speed
      ensures this.num == num && kind == Kind.Basic && this.speed == speed
    {
      var b := new Character(x, y, width, height, BASIC_HEALTH, BASIC_SHIELD, speed);
      b.moving := true;
      body := b;
      health := BASIC_HEALTH;
      this.num := num;
      kind := Kind.Basic;
      this.speed := speed;
    }

    /** new BossEnemy(x, y, width, height, num, level); the integer speed
        BossSpeed(level) stands for (int)(1.5 + 0.1 * level). */
    constructor Boss(x: int, y: int, width: int, height: int, num: int, level: int)
      ensures fresh(body)
      ensures Box() == Rect(x, y, width, height)
      ensures health == BossHealth(level) && !body.moving && body.directionFacing == DOWN && body.frame == 0
      ensures body.shield == BossShield(level) && body.speed == BossSpeed(level)
      ensures this.num == num && kind == Kind.Boss(level) && speed == BossSpeed(level)
    {
      body := new Character(x, y, width, height, BossHealth(level), BossShield(level), BossSpeed(level));
      health := BossHealth(level);
      this.num := num;
      kind := Kind.Boss(level);
      speed := BossSpeed(level);
    }

    /** Enemy damage is flat: no shield absorbs it. */
    method UpdateHealth(damage: int)
      modifies this`health
      ensures health == old(health) - damage
    {
      health := health - damage;
    }

    predicate IsAlive()
      reads this`health
    {
      health > 0
    }

    function GetNum(): (n: int)
      ensures n == num
    {
      num
    }

    /** collides(map) */
    method CollidesNow(obstacles: seq<Rect>, walls: seq<Rect>) returns (c: bool)
      ensures c <==> Collides(Box(), obstacles, walls)
    {
      var i := 0;
      while i < |obstacles|
        invariant 0 <= i <= |obstacles|
        invariant forall j :: 0 <= j < i ==> !Intersects(obstacles[j], Box())
      {
        if Intersects(Box(), obstacles[i]) {
          IntersectsSymmetric(Box(), obstacles[i]);
          return true;
        }
        i := i + 1;
      }
      i := 0;
      while i < |walls|
        invariant 0 <= i <= |walls|
        invariant forall j :: 0 <= j < i ==> !Intersects(walls[j], Box())
      {
        if Intersects(Box(), walls[i]) {
          IntersectsSymmetric(Box(), walls[i]);
          return true;
        }
        i := i + 1;
      }
      return false;
    }

    /** moveTowardPlayer(p, map, others) for either kind.  `diag` is the
        diagonal step toward the player, `step` the position update used by
        the basic enemy. */
    method MoveTowardPlayer(p: Rect, obstacles: seq<Rect>, walls: seq<Rect>, step: StepFn, diag: (int, int))
      modifies body`x, body`y, body`directionFacing, body`moving
      ensures kind.Basic? ==>
                GetPose() == BasicSteer(old(GetPose()), body.width, body.height, p, speed, diag, step, obstacles, walls)
      ensures kind.Boss? ==>
                GetPose() == BossSteer(old(GetPose()), body.width, body.height, p, speed, diag, obstacles, walls)
    {
      if kind.Basic? {
        MoveBasic(p, obstacles, walls, step, diag);
      } else {
        MoveBoss(p, obstacles, walls, diag);
      }
    }

    method MoveBasic(p: Rect, obstacles: seq<Rect>, walls: seq<Rect>, step: StepFn, diag: (int, int))
      modifies body`x, body`y, body`directionFacing, body`moving
      ensures GetPose() == BasicSteer(old(GetPose()), body.width, body.height, p, speed, diag, step, obstacles, walls)
    {
      ghost var o := GetPose();
      var originalX, originalY := body.x, body.y;
      var req := FunnelRequest(body.x, body.y, speed);
      if req.Funnel? {
        var n := if req.vertical then step(body.x, body.y, 0, req.delta) else step(body.x, body.y, req.delta, 0);
        body.x, body.y := n.0, n.1;
        if req.vertical {
          if body.y > originalY { body.directionFacing := DOWN; }
          else if body.y < originalY { body.directionFacing := UP; }
          else { body.directionFacing := DOWN; body.moving := false; }
        } else {
          if body.x > originalX { body.directionFacing := RIGHT; }
          else if body.x < originalX { body.directionFacing := LEFT; }
          else { body.directionFacing := DOWN; body.moving := false; }
        }
        return;
      }
      var dx := p.x - body.x;
      var dy := p.y - body.y;
      if dx == 0 && dy == 0 {
        return;
      }
      body.moving := true;
      var n := step(body.x, body.y, diag.0, diag.1);
      body.x, body.y := n.0, n.1;
      var hit := CollidesNow(obstacles, walls);
      if hit {
        body.x, body.y := originalX, originalY;
        n := step(body.x, body.y, AxisSpeed(dx, speed), 0);
        body.x, body.y := n.0, n.1;
        hit := CollidesNow(obstacles, walls);
        if hit {
          body.x := originalX;
        }
        n := step(body.x, body.y, 0, AxisSpeed(dy, speed));
        body.x, body.y := n.0, n.1;
        hit := CollidesNow(obstacles, walls);
        if hit {
          body.y := originalY;
        }
      }
      ChangeDirectionFrom(originalX, originalY);
    }

    method MoveBoss(p: Rect, obstacles: seq<Rect>, walls: seq<Rect>, diag: (int, int))
      modifies body`x, body`y, body`directionFacing, body`moving
      ensures GetPose() == BossSteer(old(GetPose()), body.width, body.height, p, speed, diag, obstacles, walls)
    {
      var req := FunnelRequest(body.x, body.y, speed);
      if req.Funnel? {
        BossFunnel(req.vertical, req.delta);
        return;
      }
      var dx := p.x - body.x;
      var dy := p.y - body.y;
      if dx == 0 && dy == 0 {
        return;
      }
      BossPursuit(obstacles, walls, diag, AxisSpeed(dx, speed), AxisSpeed(dy, speed));
    }

    /** A funnel move of the boss: a direct, unchecked step on one axis. */
    method BossFunnel(vertical: bool, delta: int)
      modifies body`x, body`y, body`directionFacing, body`moving
      ensures var o := old(GetPose());
              var n := if vertical then Translation(o.x, o.y, 0, delta) else Translation(o.x, o.y, delta, 0);
              GetPose() == FunnelFacing(o, vertical, n.0, n.1)
    {
      var originalX, originalY := body.x, body.y;
      if vertical {
        body.y := body.y + delta;
        if body.y > originalY { body.directionFacing := DOWN; }
        else if body.y < originalY { body.directionFacing := UP; }
        else { body.directionFacing := DOWN; body.moving := false; }
      } else {
        body.x := body.x + delta;
        if body.x > originalX { body.directionFacing := RIGHT; }
        else if body.x < originalX { body.directionFacing := LEFT; }
        else { body.directionFacing := DOWN; body.moving := false; }
      }
    }

    /** The boss's pursuit: diagonal, then per-axis retries, then the moving flag. */
    method BossPursuit(obstacles: seq<Rect>, walls: seq<Rect>, diag: (int, int), sx: int, sy: int)
      modifies body`x, body`y, body`directionFacing, body`moving
      ensures var o := old(GetPose());
              var n := PursuitPosition(o.x, o.y, body.width, body.height, diag.0, diag.1, sx, sy,
                                       Translation, obstacles, walls);
              GetPose() == if n.0 != o.x || n.1 != o.y then ChangeDirection(o, n.0, n.1).(moving := true)
                           else o.(moving := false)
    {
      var originalX, originalY := body.x, body.y;
      PursuitMove(obstacles, walls, diag, sx, sy);
      var movedX := body.x - originalX;
      var movedY := body.y - originalY;
      if movedX != 0 || movedY != 0 {
        ChangeDirectionFrom(originalX, originalY);
        body.moving := true;
      } else {
        body.moving := false;
      }
    }

    /** Where the pursuit puts the boss: the diagonal step, or when that
        collides, each axis's step on its own, undone when it collides. */
    method PursuitMove(obstacles: seq<Rect>, walls: seq<Rect>, diag: (int, int), sx: int, sy: int)
      modifies body`x, body`y
      ensures (body.x, body.y) == PursuitPosition(old(body.x), old(body.y), body.width, body.height,
                                                  diag.0, diag.1, sx, sy, Translation, obstacles, walls)
    {
      var originalX, originalY := body.x, body.y;
      body.x, body.y := body.x + diag.0, body.y + diag.1;
      var hit := CollidesNow(obstacles, walls);
      if hit {
        body.x, body.y := originalX, originalY;
        body.x := body.x + sx;
        hit := CollidesNow(obstacles, walls);
        if hit { body.x := originalX; }
        body.y := body.y + sy;
        hit := CollidesNow(obstacles, walls);
        if hit { body.y := originalY; }
      }
    }

    /** changeDirection(originalX, originalY) */
    method ChangeDirectionFrom(originalX: int, originalY: int)
      modifies body`directionFacing, body`moving
      ensures GetPose() == ChangeDirection(Pose(originalX, originalY, old(body.directionFacing), old(body.moving)),
                                           body.x, body.y)
    {
      if body.x > originalX {
        body.directionFacing := RIGHT;
      } else if body.x < originalX {
        body.directionFacing := LEFT;
      } else {
        if body.y > originalY { body.directionFacing := DOWN; }
        else if body.y < originalY { body.directionFacing := UP; }
        else {
          body.directionFacing := DOWN;
          body.moving := false;
        }
      }
    }

    method ChangeFrame()
      modifies body`frame
      ensures body.frame == JavaRem(old(body.frame) + 1, 2)
      ensures old(body.frame) == 0 ==> body.frame == 1
      ensures old(body.frame) == 1 ==> body.frame == 0
    {
      body.ChangeFrame();
    }
  }

  /** A basic enemy survives four one-point hits and dies on the fifth. */
  method BasicEnemyDiesOnFifthHit(x: int, y: int, num: int) returns (aliveAfterFour: bool, aliveAfterFive: bool)
    ensures aliveAfterFour && !aliveAfterFive
  {
    var e := new Enemy.Basic(x, y, 75, 75, 2, num);
    var hits := 0;
    while hits < 4
      invariant 0 <= hits <= 4 && e.health == BASIC_HEALTH - hits
    {
      e.UpdateHealth(1);
      hits := hits + 1;
    }
    aliveAfterFour := e.IsAlive();
    e.UpdateHealth(1);
    aliveAfterFive := e.IsAlive();
  }
}
