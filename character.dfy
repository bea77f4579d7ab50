/** Character: the box, health, shield, speed and facing shared by the player and the enemies. */
module Characters {
  import opened Geometry
  import opened JavaInt

  /** Facing directions and move directions. */
  const LEFT: int := 1
  const RIGHT: int := 2
  const UP: int := 3
  const DOWN: int := 4

  /** Most hearts or shields the player can hold. */
  const MAX_POINTS: int := 5

  /** Box after a four-direction move of `speed` pixels that is only taken
      when the moved box stays inside the panel [0, panW] x [0, panH]. */
  function Stepped(b: Rect, d: int, speed: int, panW: int, panH: int): (r: Rect)
    ensures r.width == b.width && r.height == b.height
    ensures d != UP && d != DOWN ==> r.y == b.y
    ensures d != LEFT && d != RIGHT ==> r.x == b.x
    ensures r.x != b.x ==> (d == LEFT && r.x == b.x - speed && r.x >= 0) ||
                           (d == RIGHT && r.x == b.x + speed && r.x + r.width <= panW)
    ensures r.y != b.y ==> (d == UP && r.y == b.y - speed && r.y >= 0) ||
                           (d == DOWN && r.y == b.y + speed && r.y + r.height <= panH)
  {
    if d == LEFT then (if b.x - speed >= 0 then b.Translate(-speed, 0) else b)
    else if d == RIGHT then (if b.x + b.width + speed <= panW then b.Translate(speed, 0) else b)
    else if d == UP then (if b.y - speed >= 0 then b.Translate(0, -speed) else b)
    else if d == DOWN then (if b.y + b.height + speed <= panH then b.Translate(0, speed) else b)
    else b
  }

  /** The box lies inside the panel. */
  predicate InPanel(b: Rect, panW: int, panH: int)
  {
    0 <= b.x && b.x + b.width <= panW && 0 <= b.y && b.y + b.height <= panH
  }

  /** A box that starts inside the panel stays inside after any move with a non-negative speed. */
  lemma SteppedStaysInPanel(b: Rect, d: int, speed: int, panW: int, panH: int)
    requires InPanel(b, panW, panH) && speed >= 0
    ensures InPanel(Stepped(b, d, speed, panW, panH), panW, panH)
  {
  }

  /** Health and shield after `damage`: the shield absorbs first, any
      overflow is carried into health and the shield is left at zero. */
  function AbsorbDamage(health: int, shield: int, damage: int): (r: (int, int))
    ensures shield <= 0 ==> r == (health - damage, shield)
    ensures shield > 0 && damage <= shield ==> r == (health, shield - damage)
    ensures shield > 0 && damage > shield ==> r == (health - (damage - shield), 0)
    ensures shield >= 0 && damage >= 0 ==> r.0 + r.1 == health + shield - damage && r.1 >= 0
    ensures damage >= 0 ==> r.0 <= health && r.1 <= shield
  {
    if shield > 0 then
      var s := shield - damage;
      if s < 0 then (health + s, 0) else (health, s)
    else (health - damage, shield)
  }

  /** A value after adding `amount` and clamping to [0, 5]. */
  function ClampedAdd(v: int, amount: int): (r: int)
    ensures 0 <= r <= MAX_POINTS
    ensures 0 <= v + amount <= MAX_POINTS ==> r == v + amount
    ensures v + amount > MAX_POINTS ==> r == MAX_POINTS
    ensures v + amount < 0 ==> r == 0
  {
    var s := v + amount;
    var s := if s > MAX_POINTS then MAX_POINTS else s;
    if s < 0 then 0 else s
  }

  /** Character.java: the mutable state of a player or enemy.  Width and
      height never change after construction.  Speed is an integer number of
      pixels per step. */
  class Character {
    var x: int
    var y: int
    const width: int
    const height: int
    var health: int
    var shield: int
    var speed: int
    var directionFacing: int
    var moving: bool
    var frame: int

    function Box(): Rect
      reads this`x, this`y
    {
      Rect(x, y, width, height)
    }

    constructor (x: int, y: int, width: int, height: int, health: int, shield: int, speed: int)
      ensures Box() == Rect(x, y, width, height)
      ensures this.health == health && this.shield == shield && this.speed == speed
      ensures directionFacing == DOWN && !moving && frame == 0
    {
      this.x, this.y := x, y;
      this.width, this.height := width, height;
      this.health, this.shield, this.speed := health, shield, speed;
      this.directionFacing := DOWN;
      this.moving := false;
      this.frame := 0;
    }

    method SetMoving(moving: bool)
      modifies this
      ensures this.moving == moving
      ensures x == old(x) && y == old(y) && health == old(health) && shield == old(shield)
      ensures speed == old(speed) && directionFacing == old(directionFacing) && frame == old(frame)
    {
      this.moving := moving;
    }

    /** Animation frame alternates between 0 and 1. */
    method ChangeFrame()
      modifies this`frame
      ensures frame == JavaRem(old(frame) + 1, 2)
      ensures old(frame) == 0 ==> frame == 1
      ensures old(frame) == 1 ==> frame == 0
    {
      frame := JavaRem(frame + 1, 2);
    }

    /** Face `direction` and take one clamped step of `speed` that way. */
    method Move(direction: int, panW: int, panH: int)
      modifies this`x, this`y, this`directionFacing
      ensures directionFacing == direction
      ensures Box() == Stepped(old(Box()), direction, speed, panW, panH)
    {
      directionFacing := direction;
      if direction == LEFT {
        if x - speed >= 0 { x := x - speed; }
      } else if direction == RIGHT {
        if x + width + speed <= panW { x := x + speed; }
      } else if direction == UP {
        if y - speed >= 0 { y := y - speed; }
      } else if direction == DOWN {
        if y + height + speed <= panH { y := y + speed; }
      }
    }

    /** Damage with shield absorption. */
    method UpdateHealth(damage: int)
      modifies this`health, this`shield
      ensures (health, shield) == AbsorbDamage(old(health), old(shield), damage)
    {
      if shield > 0 {
        shield := shield - damage;
        if shield < 0 {
          health := health + shield;
          shield := 0;
        }
      } else {
        health := health - damage;
      }
    }

    predicate IsAlive()
      reads this
    {
      health > 0
    }

    method AddHealth(amount: int)
      modifies this`health
      ensures health == ClampedAdd(old(health), amount)
      ensures 0 <= health <= MAX_POINTS
    {
      health := health + amount;
      if health > MAX_POINTS { health := MAX_POINTS; }
      if health < 0 { health := 0; }
    }

    method AddShield(amount: int)
      modifies this`shield
      ensures shield == ClampedAdd(old(shield), amount)
      ensures 0 <= shield <= MAX_POINTS
    {
      shield := shield + amount;
      if shield > MAX_POINTS { shield := MAX_POINTS; }
      if shield < 0 { shield := 0; }
    }

    method AddSpeed(delta: int)
      modifies this`speed
      ensures speed == old(speed) + delta
    {
      speed := speed + delta;
    }
  }
}
