/** The player: Player.java with its power-up inventory, and the two power-up
    kinds of PowerUp.java, Shotgun.java and SpeedBoost.java. */
module Players {
  import opened Geometry
  import opened Characters
  import opened Bullets
  import opened JavaInt
  import opened Lists

  /** Side of every bullet the player fires. */
  const BULLET_SIZE: int := 20
  /** Number of pellets of a shotgun blast (angle offsets -20, -10, 0, 10, 20 degrees). */
  const PELLETS: int := 5

  datatype PowerUpKind = Shotgun | SpeedBoost(boost: int)
  datatype PowerUp = PowerUp(kind: PowerUpKind, duration: int)

  /** Player.InventoryPowerUp: a collected power-up, its remaining ticks and whether it runs. */
  datatype InventoryPowerUp = InventoryPowerUp(powerUp: PowerUp, remaining: int, active: bool)

  /** What power-ups change on the player: the shotgun flag and the speed. */
  datatype Effects = Effects(shotgun: bool, speed: int)

  /** PowerUp.activate: the shotgun turns the flag on, a boost adds to speed. */
  function Activate(p: PowerUp, e: Effects): (r: Effects)
    ensures p.kind.Shotgun? ==> r == e.(shotgun := true)
    ensures p.kind.SpeedBoost? ==> r == e.(speed := e.speed + p.kind.boost)
  {
    match p.kind
    case Shotgun => e.(shotgun := true)
    case SpeedBoost(boost) => e.(speed := e.speed + boost)
  }

  /** PowerUp.deactivate: the shotgun turns the flag off, a boost subtracts from speed. */
  function Deactivate(p: PowerUp, e: Effects): (r: Effects)
    ensures p.kind.Shotgun? ==> r == e.(shotgun := false)
    ensures p.kind.SpeedBoost? ==> r == e.(speed := e.speed - p.kind.boost)
  {
    match p.kind
    case Shotgun => e.(shotgun := false)
    case SpeedBoost(boost) => e.(speed := e.speed - boost)
  }

  /** Deactivation undoes activation: exactly for a speed boost, and for the
      shotgun whenever the shotgun was off before. */
  lemma DeactivateUndoesActivate(p: PowerUp, e: Effects)
    requires p.kind.SpeedBoost? || !e.shotgun
    ensures Deactivate(p, Activate(p, e)) == e
  {
  }

  predicate AnyActive(ps: seq<InventoryPowerUp>)
  {
    exists i :: 0 <= i < |ps| && ps[i].active
  }

  /** The invariant of the inventory: no two power-ups run at once. */
  predicate AtMostOneActive(ps: seq<InventoryPowerUp>)
  {
    forall i, j :: 0 <= i < j < |ps| && ps[i].active ==> !ps[j].active
  }

  /** The entries still waiting to be used, in order. */
  function Queued(ps: seq<InventoryPowerUp>): (q: seq<InventoryPowerUp>)
    ensures |q| <= |ps|
    ensures forall k :: 0 <= k < |q| ==> !q[k].active
  {
    if |ps| == 0 then []
    else (if ps[0].active then [] else [ps[0]]) + Queued(ps[1..])
  }

  /** Index of the first entry that is not running, -1 when all run. */
  function FirstInactive(ps: seq<InventoryPowerUp>): (k: int)
    ensures -1 <= k < |ps|
    ensures k >= 0 ==> !ps[k].active
    ensures forall j :: 0 <= j < |ps| && (k < 0 || j < k) ==> ps[j].active
  {
    if |ps| == 0 then -1
    else if !ps[0].active then 0
    else
      var k := FirstInactive(ps[1..]);
      assert forall j :: 1 <= j < |ps| ==> ps[j] == ps[1..][j - 1];
      if k < 0 then -1 else k + 1
  }

  /** Start entry k (if any) with its full duration and apply its effect. */
  function ActivatedAt(ps: seq<InventoryPowerUp>, e: Effects, k: int): (r: (seq<InventoryPowerUp>, Effects))
    requires -1 <= k < |ps|
  {
    if k < 0 then (ps, e)
    else (ps[k := ps[k].(active := true, remaining := ps[k].powerUp.duration)], Activate(ps[k].powerUp, e))
  }

  /** usePowerUp: nothing when one already runs; otherwise the first inactive
      entry starts with its full duration.  As nothing runs, that entry is the head. */
  function Used(ps: seq<InventoryPowerUp>, e: Effects): (r: (seq<InventoryPowerUp>, Effects))
    ensures AnyActive(ps) || |ps| == 0 ==> r == (ps, e)
    ensures !AnyActive(ps) && |ps| > 0 ==>
              |r.0| == |ps| && r.0[0].active && r.0[0].powerUp == ps[0].powerUp &&
              r.0[0].remaining == ps[0].powerUp.duration &&
              r.0[1..] == ps[1..] && r.1 == Activate(ps[0].powerUp, e)
  {
    if AnyActive(ps) then (ps, e)
    else ActivatedAt(ps, e, FirstInactive(ps))
  }

  /** Using a power-up never lets two run at once, and afterwards one runs
      whenever the inventory is not empty. */
  lemma UsedKeepsAtMostOneActive(ps: seq<InventoryPowerUp>, e: Effects)
    requires AtMostOneActive(ps)
    ensures AtMostOneActive(Used(ps, e).0)
    ensures |ps| > 0 ==> AnyActive(Used(ps, e).0)
  {
    var r := Used(ps, e).0;
    if !AnyActive(ps) && |ps| > 0 {
      forall i, j | 0 <= i < j < |r| && r[i].active
        ensures !r[j].active
      {
        assert r[j] == ps[j];
      }
      assert r[0].active;
    }
  }

  /** An entry runs out on this tick. */
  predicate Expires(ip: InventoryPowerUp)
  {
    ip.active && ip.remaining - 1 <= 0
  }

  /** An entry is still in the inventory after this tick. */
  predicate Stays(ip: InventoryPowerUp)
  {
    !Expires(ip)
  }

  function Ticked(ip: InventoryPowerUp): InventoryPowerUp
  {
    if ip.active then ip.(remaining := ip.remaining - 1) else ip
  }

  /** updatePowerUps on the list: running entries lose a tick, expired ones go. */
  function TickList(ps: seq<InventoryPowerUp>): (r: seq<InventoryPowerUp>)
    ensures |r| <= |ps|
    ensures forall k :: 0 <= k < |r| && r[k].active ==> r[k].remaining > 0
  {
    if |ps| == 0 then []
    else (if Expires(ps[0]) then [] else [Ticked(ps[0])]) + TickList(ps[1..])
  }

  /** What a tick leaves: exactly the entries that do not run out, in
      their order, each running one with one tick less and each waiting one
      as it was. */
  lemma {:induction false} TickListSurvivors(ps: seq<InventoryPowerUp>)
    ensures var kept := Filter(Stays, ps);
            |TickList(ps)| == |kept| &&
            forall k :: 0 <= k < |kept| ==>
              TickList(ps)[k].powerUp == kept[k].powerUp && TickList(ps)[k].active == kept[k].active &&
              TickList(ps)[k].remaining == if kept[k].active then kept[k].remaining - 1 else kept[k].remaining
  {
    if |ps| > 0 {
      TickListSurvivors(ps[1..]);
      FilterCons(Stays, ps[0], ps[1..]);
      assert ps == [ps[0]] + ps[1..];
    }
  }

  /** updatePowerUps on the player: every expiring entry is deactivated,
      the last one in the list first. */
  function TickEffects(ps: seq<InventoryPowerUp>, e: Effects): Effects
  {
    if |ps| == 0 then e
    else
      var rest := TickEffects(ps[1..], e);
      if Expires(ps[0]) then Deactivate(ps[0].powerUp, rest) else rest
  }

  /** TickList and TickEffects on a suffix, one entry at a time. */
  lemma TickAt(ps: seq<InventoryPowerUp>, i: int, e: Effects)
    requires 0 <= i < |ps|
    ensures TickList(ps[i..]) == if Expires(ps[i]) then TickList(ps[i + 1..]) else [Ticked(ps[i])] + TickList(ps[i + 1..])
    ensures TickEffects(ps[i..], e) == if Expires(ps[i]) then Deactivate(ps[i].powerUp, TickEffects(ps[i + 1..], e))
                                       else TickEffects(ps[i + 1..], e)
  {
    assert ps[i..][1..] == ps[i + 1..];
  }

  /** One turn of updatePowerUps' loop on the list, which runs from the
      back: entry i is cut out when it expires, replaced by its ticked self
      when it runs on, and left as it is when it waits. */
  lemma TickStep(cur: seq<InventoryPowerUp>, ps: seq<InventoryPowerUp>, i: int)
    requires 0 <= i < |ps| && cur == ps[..i + 1] + TickList(ps[i + 1..])
    ensures i < |cur| && cur[i] == ps[i]
    ensures Expires(ps[i]) ==> cur[..i] + cur[i + 1..] == ps[..i] + TickList(ps[i..])
    ensures !Expires(ps[i]) && ps[i].active ==> cur[i := Ticked(ps[i])] == ps[..i] + TickList(ps[i..])
    ensures !ps[i].active ==> cur == ps[..i] + TickList(ps[i..])
  {
    TickAt(ps, i, Effects(false, 0));
    SnocAppend(ps, i, TickList(ps[i + 1..]));
    CutAt(cur, ps[..i], ps[i], TickList(ps[i + 1..]), Ticked(ps[i]));
  }

  /** A prefix one longer, followed by t. */
  lemma SnocAppend<T>(s: seq<T>, i: int, t: seq<T>)
    requires 0 <= i < |s|
    ensures s[..i + 1] + t == s[..i] + ([s[i]] + t)
  {
    assert s[..i + 1] == s[..i] + [s[i]];
  }

  /** A list a, x, b: x sits at |a|, cutting it out leaves a and b, and
      replacing it by y gives a, y, b. */
  lemma CutAt<T>(s: seq<T>, a: seq<T>, x: T, b: seq<T>, y: T)
    requires s == a + ([x] + b)
    ensures |a| < |s| && s[|a|] == x
    ensures s[..|a|] + s[|a| + 1..] == a + b
    ensures s[|a| := y] == a + ([y] + b)
  {
    assert s[..|a|] == a && s[|a| + 1..] == b;
  }

  /** A loop from the back over ps starts with nothing ticked and ends with
      everything ticked. */
  lemma TickEnds(ps: seq<InventoryPowerUp>, e: Effects)
    ensures ps[..|ps|] + TickList(ps[|ps|..]) == ps && TickEffects(ps[|ps|..], e) == e
    ensures ps[..0] + TickList(ps[0..]) == TickList(ps) && TickEffects(ps[0..], e) == TickEffects(ps, e)
  {
    assert ps[|ps|..] == [] && ps[..|ps|] == ps && ps[..0] == [] && ps[0..] == ps;
  }

  /** A tick never touches the queue of waiting power-ups: none is lost,
      none is reordered. */
  lemma {:induction false} TickKeepsQueue(ps: seq<InventoryPowerUp>)
    ensures Queued(TickList(ps)) == Queued(ps)
  {
    if |ps| > 0 {
      TickKeepsQueue(ps[1..]);
      var head := if Expires(ps[0]) then [] else [Ticked(ps[0])];
      QueuedAppend(head, TickList(ps[1..]));
      assert TickList(ps) == head + TickList(ps[1..]);
    }
  }

  lemma {:induction false} QueuedAppend(a: seq<InventoryPowerUp>, b: seq<InventoryPowerUp>)
    ensures Queued(a + b) == Queued(a) + Queued(b)
  {
    if |a| > 0 {
      assert (a + b)[1..] == a[1..] + b;
      QueuedAppend(a[1..], b);
    } else {
      assert a + b == b;
    }
  }

  /** The entries that survive a tick are the running ones that did not
      expire and all waiting ones: so with at most one running entry, a tick
      removes at most one entry and still has at most one running. */
  lemma {:induction false} TickKeepsAtMostOneActive(ps: seq<InventoryPowerUp>)
    requires AtMostOneActive(ps)
    ensures AtMostOneActive(TickList(ps))
    ensures |TickList(ps)| >= |ps| - 1
    ensures AnyActive(TickList(ps)) ==> AnyActive(ps)
  {
    if |ps| > 0 {
      var rest := ps[1..];
      assert AtMostOneActive(rest) by {
        forall i, j | 0 <= i < j < |rest| && rest[i].active
          ensures !rest[j].active
        {
          assert rest[i] == ps[i + 1] && rest[j] == ps[j + 1];
        }
      }
      TickKeepsAtMostOneActive(rest);
      var t := TickList(rest);
      var head := if Expires(ps[0]) then [] else [Ticked(ps[0])];
      assert TickList(ps) == head + t;
      if ps[0].active {
        assert forall j :: 0 <= j < |rest| ==> !rest[j].active by {
          forall j | 0 <= j < |rest|
            ensures !rest[j].active
          {
            assert rest[j] == ps[j + 1];
          }
        }
        NoneActiveTick(rest);
        assert |TickList(rest)| == |rest|;
      }
      var r := TickList(ps);
      forall i, j | 0 <= i < j < |r| && r[i].active
        ensures !r[j].active
      {
        if |head| == 1 {
          if i == 0 {
            assert ps[0].active;
            assert r[j] == t[j - 1];
          } else {
            assert r[i] == t[i - 1] && r[j] == t[j - 1];
          }
        }
      }
      if AnyActive(r) {
        var k :| 0 <= k < |r| && r[k].active;
        if |head| == 1 && k == 0 {
          assert ps[0].active;
        } else {
          var k' := if |head| == 1 then k - 1 else k;
          assert r[k] == t[k'];
          assert AnyActive(t);
          var m :| 0 <= m < |rest| && rest[m].active;
          assert ps[m + 1].active;
        }
      }
    }
  }

  /** Without running entries a tick changes nothing. */
  lemma {:induction false} NoneActiveTick(ps: seq<InventoryPowerUp>)
    requires forall j :: 0 <= j < |ps| ==> !ps[j].active
    ensures TickList(ps) == ps
  {
    if |ps| > 0 {
      NoneActiveTick(ps[1..]);
      assert [ps[0]] + ps[1..] == ps;
    }
  }

  /** Math.round(8 cos a), Math.round(8 sin a) for a = base + offset, with base
      0, pi, -pi/2, pi/2 for facing right, left, up, down and offsets
      -20, -10, 0, 10, 20 degrees. */
  function ShotgunVelocities(direction: int): (v: seq<(int, int)>)
    ensures |v| == PELLETS
  {
    if direction == LEFT then [(-8, 3), (-8, 1), (-8, 0), (-8, -1), (-8, -3)]
    else if direction == UP then [(-3, -8), (-1, -8), (0, -8), (1, -8), (3, -8)]
    else if direction == DOWN then [(3, 8), (1, 8), (0, 8), (-1, 8), (-3, 8)]
    else [(8, -3), (8, -1), (8, 0), (8, 1), (8, 3)]
  }

  /** The middle pellet flies exactly like a plain bullet; every pellet keeps
      the full speed on the facing axis and drifts at most 3 on the other;
      the spread is mirror-symmetric about the facing axis. */
  lemma ShotgunSpreadShape(direction: int)
    requires LEFT <= direction <= DOWN
    ensures ShotgunVelocities(direction)[2] == InitialVelocity(direction)
    ensures forall k :: 0 <= k < PELLETS ==>
              var v := ShotgunVelocities(direction)[k];
              var m := ShotgunVelocities(direction)[PELLETS - 1 - k];
              if direction == LEFT || direction == RIGHT
              then v.0 == InitialVelocity(direction).0 && -3 <= v.1 <= 3 && m.1 == -v.1 && m.0 == v.0
              else v.1 == InitialVelocity(direction).1 && -3 <= v.0 <= 3 && m.0 == -v.0 && m.1 == v.1
  {
  }

  /** The bullets one shot starts: BULLET_SIZE squares centred on the shooter's
      box (x, y, w, h), bouncing pellets with the spread velocities under the
      shotgun, otherwise one plain bullet in the facing direction. */
  function ShotStates(x: int, y: int, w: int, h: int, facing: int, shotgun: bool,
                      panW: int, panH: int): (ss: seq<BulletState>)
    ensures |ss| == (if shotgun then PELLETS else 1)
    ensures forall s :: s in ss ==>
              s.box == Rect(x + JavaHalf(w - BULLET_SIZE), y + JavaHalf(h - BULLET_SIZE), BULLET_SIZE, BULLET_SIZE) &&
              s.bouncing == shotgun && s.bounces == INITIAL_BOUNCES && s.panW == panW && s.panH == panH
    ensures LEFT <= facing <= DOWN ==> (ss[|ss| / 2].vx, ss[|ss| / 2].vy) == InitialVelocity(facing)
  {
    var origin := Rect(x + JavaHalf(w - BULLET_SIZE), y + JavaHalf(h - BULLET_SIZE), BULLET_SIZE, BULLET_SIZE);
    if shotgun then
      var spread := ShotgunVelocities(facing);
      seq(PELLETS, k requires 0 <= k < PELLETS =>
        BulletState(origin, spread[k].0, spread[k].1, panW, panH, true, INITIAL_BOUNCES))
    else
      [BulletState(origin, InitialVelocity(facing).0, InitialVelocity(facing).1, panW, panH, false, INITIAL_BOUNCES)]
  }

  /** Player.java.  The player keeps its own `frame` and `moving` (they shadow
      the fields of the same name in Character.java); the rest of its state is
      the Character in `body`. */
  class Player {
    const body: Character
    const panelWidth: int
    const panelHeight: int
    var frame: int
    var moving: bool
    var shotgun: bool
    var powerUps: seq<InventoryPowerUp>

    function GetEffects(): Effects
      reads this, body
    {
      Effects(shotgun, body.speed)
    }

    constructor (x: int, y: int, width: int, height: int, speed: int, panW: int, panH: int)
      ensures fresh(body)
      ensures body.Box() == Rect(x, y, width, height)
      ensures body.health == MAX_POINTS && body.shield == MAX_POINTS && body.speed == speed
      ensures body.directionFacing == DOWN
      ensures panelWidth == panW && panelHeight == panH
      ensures frame == 0 && !moving && !shotgun && powerUps == []
    {
      body := new Character(x, y, width, height, MAX_POINTS, MAX_POINTS, speed);
      panelWidth, panelHeight := panW, panH;
      frame := 0;
      moving := false;
      shotgun := false;
      powerUps := [];
    }

    method ChangeFrame()
      modifies this`frame
      ensures frame == JavaRem(old(frame) + 1, 2)
      ensures old(frame) == 0 ==> frame == 1
      ensures old(frame) == 1 ==> frame == 0
    {
      frame := JavaRem(frame + 1, 2);
    }

    method SetMoving(moving: bool)
      modifies this`moving
      ensures this.moving == moving
    {
      this.moving := moving;
    }

    method SetShotgun(active: bool)
      modifies this`shotgun
      ensures shotgun == active
    {
      shotgun := active;
    }

    function IsShotgun(): (b: bool)
      reads this
      ensures b == GetEffects().shotgun
    {
      shotgun
    }

    /** The bullet states a shot from the current position, facing and
        effects starts. */
    function Shot(): seq<BulletState>
      reads this`shotgun, body`x, body`y, body`directionFacing
    {
      ShotStates(body.x, body.y, body.width, body.height, body.directionFacing, shotgun, panelWidth, panelHeight)
    }

    /** shoot(): bullets start centred on the player, 20 x 20.  With the
        shotgun, five bouncing pellets with the spread velocities; otherwise
        one plain bullet in the facing direction. */
    method Shoot() returns (bs: seq<Bullet>)
      ensures forall k :: 0 <= k < |bs| ==> fresh(bs[k])
      ensures forall j, k :: 0 <= j < k < |bs| ==> bs[j] != bs[k]
      ensures |bs| == |Shot()| && forall k :: 0 <= k < |bs| ==> bs[k].State() == Shot()[k]
      ensures var origin := Rect(body.x + JavaHalf(body.width - BULLET_SIZE), body.y + JavaHalf(body.height - BULLET_SIZE),
                                 BULLET_SIZE, BULLET_SIZE);
              if shotgun then
                |bs| == PELLETS &&
                forall k :: 0 <= k < PELLETS ==>
                  bs[k].State() == BulletState(origin, ShotgunVelocities(body.directionFacing)[k].0,
                                               ShotgunVelocities(body.directionFacing)[k].1,
                                               panelWidth, panelHeight, true, INITIAL_BOUNCES)
              else
                |bs| == 1 &&
                bs[0].State() == BulletState(origin, InitialVelocity(body.directionFacing).0,
                                             InitialVelocity(body.directionFacing).1,
                                             panelWidth, panelHeight, false, INITIAL_BOUNCES)
    {
      var bulletX := body.x + JavaHalf(body.width - BULLET_SIZE);
      var bulletY := body.y + JavaHalf(body.height - BULLET_SIZE);
      if shotgun {
        var spread := ShotgunVelocities(body.directionFacing);
        bs := [];
        var k := 0;
        while k < PELLETS
          invariant 0 <= k <= PELLETS && |bs| == k
          invariant forall j :: 0 <= j < k ==> fresh(bs[j])
          invariant forall j, m :: 0 <= j < m < k ==> bs[j] != bs[m]
          invariant forall j :: 0 <= j < k ==>
                      bs[j].State() == BulletState(Rect(bulletX, bulletY, BULLET_SIZE, BULLET_SIZE),
                                                   spread[j].0, spread[j].1, panelWidth, panelHeight,
                                                   true, INITIAL_BOUNCES)
        {
          var b := new Bullet.Bouncing(bulletX, bulletY, BULLET_SIZE, BULLET_SIZE, panelWidth, panelHeight,
                                       body.directionFacing);
          b.SetSpeedX(spread[k].0);
          b.SetSpeedY(spread[k].1);
          bs := bs + [b];
          k := k + 1;
        }
      } else {
        var b := new Bullet(bulletX, bulletY, BULLET_SIZE, BULLET_SIZE, panelWidth, panelHeight, body.directionFacing);
        bs := [b];
      }
    }

    /** addPowerUp: queue a collected power-up, inactive, with its full duration. */
    method AddPowerUp(p: PowerUp)
      modifies this`powerUps
      ensures powerUps == old(powerUps) + [InventoryPowerUp(p, p.duration, false)]
    {
      powerUps := powerUps + [InventoryPowerUp(p, p.duration, false)];
    }

    /** usePowerUp */
    method UsePowerUp()
      modifies this`powerUps, this`shotgun, body`speed
      ensures (powerUps, GetEffects()) == Used(old(powerUps), old(GetEffects()))
    {
      var i := 0;
      while i < |powerUps|
        invariant 0 <= i <= |powerUps|
        invariant forall j :: 0 <= j < i ==> !powerUps[j].active
      {
        if powerUps[i].active {
          return;
        }
        i := i + 1;
      }
      ActivateFirstInactive();
    }

    /** The second loop of usePowerUp: activate the first entry that is not running. */
    method ActivateFirstInactive()
      modifies this`powerUps, this`shotgun, body`speed
      ensures (powerUps, GetEffects()) == ActivatedAt(old(powerUps), old(GetEffects()), FirstInactive(old(powerUps)))
    {
      var i := 0;
      while i < |powerUps|
        invariant 0 <= i <= |powerUps|
        invariant powerUps == old(powerUps) && GetEffects() == old(GetEffects())
        invariant forall j :: 0 <= j < i ==> powerUps[j].active
      {
        if !powerUps[i].active {
          var ip := powerUps[i];
          powerUps := powerUps[i := ip.(active := true, remaining := ip.powerUp.duration)];
          match ip.powerUp.kind {
            case Shotgun => SetShotgun(true);
            case SpeedBoost(boost) => body.AddSpeed(boost);
          }
          return;
        }
        i := i + 1;
      }
    }

    /** updatePowerUps: walk the inventory from the back, count running
        entries down and deactivate and drop those that run out. */
    method UpdatePowerUps()
      modifies this`powerUps, this`shotgun, body`speed
      ensures powerUps == TickList(old(powerUps))
      ensures GetEffects() == TickEffects(old(powerUps), old(GetEffects()))
    {
      ghost var ps := powerUps;
      ghost var e0 := GetEffects();
      TickEnds(ps, e0);
      var i := |powerUps| - 1;
      while i >= 0
        invariant -1 <= i < |ps| && Ticking(ps, e0, i)
      {
        UpdatePowerUpAt(i, ps, e0);
        i := i - 1;
      }
    }

    /** Where that loop stands before it looks at entry i: the entries up
        to i are as they were, those after it ticked, and their expiries
        undone from the effects e0. */
    ghost predicate Ticking(ps: seq<InventoryPowerUp>, e0: Effects, i: int)
      requires -1 <= i < |ps|
      reads this, body
    {
      powerUps == ps[..i + 1] + TickList(ps[i + 1..]) && GetEffects() == TickEffects(ps[i + 1..], e0)
    }

    /** One turn of that loop: entry i loses a tick, and when it runs out
        its effect is undone and it leaves the list. */
    method UpdatePowerUpAt(i: int, ghost ps: seq<InventoryPowerUp>, ghost e0: Effects)
      requires 0 <= i < |ps| && Ticking(ps, e0, i)
      modifies this`powerUps, this`shotgun, body`speed
      ensures Ticking(ps, e0, i - 1)
    {
      TickAt(ps, i, e0);
      TickStep(powerUps, ps, i);
      var ip := powerUps[i];
      if ip.active {
        ip := ip.(remaining := ip.remaining - 1);
        if ip.remaining <= 0 {
          match ip.powerUp.kind {
            case Shotgun => SetShotgun(false);
            case SpeedBoost(boost) => body.AddSpeed(-boost);
          }
          powerUps := powerUps[..i] + powerUps[i + 1..];
        } else {
          powerUps := powerUps[i := ip];
        }
      }
    }
  }

  /** A speed boost of d >= 1 ticks picked up by a fresh player: using it adds
      the boost, d - 1 ticks keep it, the d-th tick removes it and restores the
      speed. */
  method SpeedBoostLifecycle(d: int, boost: int) returns (boosted: int, during: int, after: int, left: nat)
    requires d >= 1
    ensures boosted == 5 + boost && during == 5 + boost && after == 5 && left == 0
  {
    var p := new Player(415, 415, 70, 70, 5, 900, 900);
    var item := PowerUp(SpeedBoost(boost), d);
    p.AddPowerUp(item);
    p.UsePowerUp();
    boosted := p.body.speed;
    var t := 0;
    while t < d - 1
      invariant 0 <= t <= d - 1
      invariant p.powerUps == [InventoryPowerUp(item, d - t, true)]
      invariant p.body.speed == 5 + boost
    {
      p.UpdatePowerUps();
      t := t + 1;
    }
    during := p.body.speed;
    p.UpdatePowerUps();
    after := p.body.speed;
    left := |p.powerUps|;
  }
}
