/** Projectiles: Bullet.java and its bouncing variant BouncingBullet.java. */
module Bullets {
  import opened Geometry

  /** Speed of a freshly fired bullet, in pixels per tick. */
  const BULLET_SPEED: int := 8
  /** Reflections a bouncing bullet has when it is fired. */
  const INITIAL_BOUNCES: int := 2

  /** Velocity given by the constructor for a direction (1 left, 2 right, 3 up, 4 down). */
  function InitialVelocity(direction: int): (v: (int, int))
    ensures direction == 1 ==> v == (-BULLET_SPEED, 0)
    ensures direction == 2 ==> v == (BULLET_SPEED, 0)
    ensures direction == 3 ==> v == (0, -BULLET_SPEED)
    ensures direction == 4 ==> v == (0, BULLET_SPEED)
    ensures !(1 <= direction <= 4) ==> v == (0, 0)
  {
    match direction
    case 1 => (-BULLET_SPEED, 0)
    case 2 => (BULLET_SPEED, 0)
    case 3 => (0, -BULLET_SPEED)
    case 4 => (0, BULLET_SPEED)
    case _ => (0, 0)
  }

  /** Out of bounds: the top-left corner lies outside [0, panW] x [0, panH]. */
  predicate OutOfBounds(box: Rect, panW: int, panH: int)
  {
    box.x < 0 || box.x > panW || box.y < 0 || box.y > panH
  }

  /** Velocity after a reflection off a box with the given overlaps: the
      component on the axis of smaller overlap flips, both flip on a tie. */
  function Reflect(vx: int, vy: int, overlapX: int, overlapY: int): (v: (int, int))
    ensures v.0 == -vx || v.0 == vx
    ensures v.1 == -vy || v.1 == vy
    ensures (v.0 == -vx && vx != 0) ==> overlapX <= overlapY
    ensures (v.1 == -vy && vy != 0) ==> overlapY <= overlapX
    ensures overlapX <= overlapY ==> v.0 == -vx
    ensures overlapY <= overlapX ==> v.1 == -vy
  {
    (if overlapX <= overlapY then -vx else vx, if overlapY <= overlapX then -vy else vy)
  }

  /** The observable state of a bullet, as the tick's specification sees it. */
  datatype BulletState = BulletState(box: Rect, vx: int, vy: int, panW: int, panH: int,
                                     bouncing: bool, bounces: int)
  {
    /** moveBullet: one step along the velocity. */
    function Advanced(): (b: BulletState)
      ensures b.box == box.Translate(vx, vy)
      ensures b.vx == vx && b.vy == vy && b.bounces == bounces && b.bouncing == bouncing
    {
      this.(box := box.Translate(vx, vy))
    }

    /** bounce(r): the new state and whether the bullet may keep moving. */
    function Bounced(r: Rect): (res: (BulletState, bool))
      ensures !res.1 <==> bounces <= 0
      ensures !res.1 ==> res.0 == this
      ensures res.1 ==> res.0.bounces == bounces - 1
      ensures res.0.box == box && res.0.bouncing == bouncing
      ensures res.0.panW == panW && res.0.panH == panH
      ensures res.0.vx == vx || res.0.vx == -vx
      ensures res.0.vy == vy || res.0.vy == -vy
      ensures res.1 ==> res.0.vx == -vx || res.0.vy == -vy
    {
      if bounces <= 0 then (this, false)
      else
        var v := Reflect(vx, vy, OverlapX(box, r), OverlapY(box, r));
        (this.(vx := v.0, vy := v.1, bounces := bounces - 1), true)
    }

    predicate Disappears()
    {
      OutOfBounds(box, panW, panH)
    }
  }

  /** Bullet.java and BouncingBullet.java in one class: `bouncing` tells the
      variant apart, and only bouncing bullets use `bouncesRemaining`. */
  class Bullet {
    var x: int
    var y: int
    const width: int
    const height: int
    var vx: int
    var vy: int
    const panW: int
    const panH: int
    const bouncing: bool
    var bouncesRemaining: int

    function Box(): Rect
      reads this`x, this`y
    {
      Rect(x, y, width, height)
    }

    function State(): BulletState
      reads this`x, this`y, this`vx, this`vy, this`bouncesRemaining
    {
      BulletState(Box(), vx, vy, panW, panH, bouncing, bouncesRemaining)
    }

    /** new Bullet(x, y, w, h, panW, panH, direction) */
    constructor (x: int, y: int, w: int, h: int, panW: int, panH: int, direction: int)
      ensures State() == BulletState(Rect(x, y, w, h), InitialVelocity(direction).0,
                                     InitialVelocity(direction).1, panW, panH, false, INITIAL_BOUNCES)
    {
      this.x, this.y, this.width, this.height := x, y, w, h;
      var v := InitialVelocity(direction);
      this.vx, this.vy := v.0, v.1;
      this.panW, this.panH := panW, panH;
      this.bouncing := false;
      this.bouncesRemaining := INITIAL_BOUNCES;
    }

    /** new BouncingBullet(x, y, w, h, panW, panH, direction) */
    constructor Bouncing(x: int, y: int, w: int, h: int, panW: int, panH: int, direction: int)
      ensures State() == BulletState(Rect(x, y, w, h), InitialVelocity(direction).0,
                                     InitialVelocity(direction).1, panW, panH, true, INITIAL_BOUNCES)
    {
      this.x, this.y, this.width, this.height := x, y, w, h;
      var v := InitialVelocity(direction);
      this.vx, this.vy := v.0, v.1;
      this.panW, this.panH := panW, panH;
      this.bouncing := true;
      this.bouncesRemaining := INITIAL_BOUNCES;
    }

    method MoveBullet()
      modifies this`x, this`y
      ensures State() == old(State()).Advanced()
    {
      x := x + vx;
      y := y + vy;
    }

    method SetSpeedX(vx: int)
      modifies this`vx
      ensures State() == old(State()).(vx := vx)
    {
      this.vx := vx;
    }

    method SetSpeedY(vy: int)
      modifies this`vy
      ensures State() == old(State()).(vy := vy)
    {
      this.vy := vy;
    }

    function GetSpeedX(): (v: int)
      reads this`vx
      ensures v == State().vx
    {
      vx
    }

    function GetSpeedY(): (v: int)
      reads this`vy
      ensures v == State().vy
    {
      vy
    }

    predicate Disappear()
      reads this`x, this`y
      ensures Disappear() <==> State().Disappears()
    {
      x < 0 || x > panW || y < 0 || y > panH
    }

    method BounceX()
      modifies this`vx
      ensures State() == old(State()).(vx := -old(vx))
    {
      SetSpeedX(-GetSpeedX());
    }

    method BounceY()
      modifies this`vy
      ensures State() == old(State()).(vy := -old(vy))
    {
      SetSpeedY(-GetSpeedY());
    }

    /** Reflect off `r` if a bounce is left; false when the budget is spent. */
    method Bounce(r: Rect) returns (keepMoving: bool)
      requires bouncing
      modifies this`vx, this`vy, this`bouncesRemaining
      ensures (State(), keepMoving) == old(State()).Bounced(r)
    {
      if bouncesRemaining <= 0 {
        return false;
      }
      var overlapX := OverlapX(Box(), r);
      var overlapY := OverlapY(Box(), r);
      if overlapX <= overlapY {
        BounceX();
      }
      if overlapY <= overlapX {
        BounceY();
      }
      bouncesRemaining := bouncesRemaining - 1;
      keepMoving := true;
    }
  }

  /** A rightward bullet fired at x = 860 in a 900-wide panel is still in
      bounds after five moves (x = 900) and out after the sixth (x = 908). */
  method RightwardBulletLeavesAfterSixMoves(y: int) returns (inAfterFive: bool, outAfterSix: bool)
    requires 0 <= y <= 900
    ensures inAfterFive && outAfterSix
  {
    var b := new Bullet(860, y, 20, 20, 900, 900, 2);
    var i := 0;
    while i < 5
      invariant 0 <= i <= 5
      invariant b.x == 860 + 8 * i && b.y == y && b.vx == 8 && b.vy == 0
    {
      b.MoveBullet();
      i := i + 1;
    }
    inAfterFive := !b.Disappear();
    b.MoveBullet();
    outAfterSix := b.Disappear();
  }

  /** A fresh bouncing bullet bounces twice and refuses the third bounce. */
  method BounceBudgetIsTwo(r: Rect, direction: int) returns (first: bool, second: bool, third: bool)
    ensures first && second && !third
  {
    var b := new Bullet.Bouncing(0, 0, 20, 20, 900, 900, direction);
    first := b.Bounce(r);
    second := b.Bounce(r);
    third := b.Bounce(r);
  }
}
