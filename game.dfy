/** Main.java: the game engine.  A call of Tick is one event of the Swing
    timer, KeyPressed and KeyReleased are the key listener.  Drawing, sound
    and the window are not part of this model. */
module Engine {
  import opened Geometry
  import opened JavaInt
  import opened Characters
  import opened Bullets
  import opened Enemies
  import opened Players
  import opened Arena
  import opened GameRules
  import opened KeyEvents
  import opened Wrappers

  /** The diagonal step an enemy aims at the player, from the enemy's box,
      the player's box and the enemy's speed: the truncated unit vector
      toward the player times the speed. */
  type Aim = (Rect, Rect, int) -> (int, int)

  /** The pose moveTowardPlayer gives an enemy of either kind. */
  function Steered(e: Enemy, o: Pose, p: Rect, obstacles: seq<Rect>, walls: seq<Rect>,
                   step: StepFn, aim: Aim): Pose
  {
    var diag := aim(Rect(o.x, o.y, e.body.width, e.body.height), p, e.speed);
    if e.kind.Basic? then BasicSteer(o, e.body.width, e.body.height, p, e.speed, diag, step, obstacles, walls)
    else BossSteer(o, e.body.width, e.body.height, p, e.speed, diag, obstacles, walls)
  }

  function States(bs: seq<Bullet>): (r: seq<BulletState>)
    reads bs
    ensures |r| == |bs| && forall i :: 0 <= i < |bs| ==> r[i] == bs[i].State()
  {
    seq(|bs|, (i: int) requires 0 <= i < |bs| reads bs => bs[i].State())
  }

  /** The characters behind the enemies, whose positions the boxes read. */
  function Bodies(es: seq<Enemy>): (r: seq<Character>)
    ensures |r| == |es| && forall i :: 0 <= i < |es| ==> r[i] == es[i].body
  {
    seq(|es|, i requires 0 <= i < |es| => es[i].body)
  }

  function EnemyBoxes(es: seq<Enemy>): (r: seq<Rect>)
    reads Bodies(es)
    ensures |r| == |es| && forall i :: 0 <= i < |es| ==> r[i] == es[i].Box()
  {
    seq(|es|, (i: int) requires 0 <= i < |es| reads Bodies(es) => es[i].Box())
  }

  /** Each enemy's number and whether it touches the player, in list order. */
  function Contacts(es: seq<Enemy>, p: Rect): (r: seq<(int, bool)>)
    reads Bodies(es)
    ensures |r| == |es| && forall i :: 0 <= i < |es| ==> r[i] == (es[i].num, Intersects(es[i].Box(), p))
  {
    seq(|es|, (i: int) requires 0 <= i < |es| reads Bodies(es) => (es[i].num, Intersects(es[i].Box(), p)))
  }

  /** Which bullets are still inside the panel. */
  function InBounds(bs: seq<Bullet>): (keep: seq<bool>)
    reads bs`x, bs`y
    ensures |keep| == |bs| && forall i :: 0 <= i < |bs| ==> (keep[i] <==> !bs[i].State().Disappears())
  {
    if |bs| == 0 then [] else [!bs[0].Disappear()] + InBounds(bs[1..])
  }

  /** Which enemies are alive. */
  function Living(es: seq<Enemy>): (keep: seq<bool>)
    reads es`health
    ensures |keep| == |es| && forall i :: 0 <= i < |es| ==> (keep[i] <==> es[i].health > 0)
  {
    if |es| == 0 then [] else [es[0].IsAlive()] + Living(es[1..])
  }

  // ------------------------------------------------- the bullet loop of move()

  /** The first box of rs the bullet box touches, -1 if none. */
  method FirstHit(rs: seq<Rect>, box: Rect) returns (k: int)
    ensures k == FirstIntersecting(rs, box)
  {
    k := 0;
    while k < |rs|
      invariant 0 <= k <= |rs|
      invariant forall j :: 0 <= j < k ==> !Intersects(rs[j], box)
    {
      if Intersects(box, rs[k]) {
        IntersectsSymmetric(box, rs[k]);
        return;
      }
      k := k + 1;
    }
    k := -1;
  }

  /** The enemy loop inside the bullet loop: the first enemy the bullet box
      touches loses one point of health. The enemies' boxes come in as eb:
      nothing in the bullet loop moves an enemy. */
  method HitEnemy(es: seq<Enemy>, eb: seq<Rect>, box: Rect) returns (k: int)
    requires |eb| == |es| && Distinct(es)
    modifies es`health
    ensures k == FirstIntersecting(eb, box)
    ensures forall j :: 0 <= j < |es| ==> es[j].health == old(es[j].health) - (if j == k then 1 else 0)
  {
    k := FirstHit(eb, box);
    if k >= 0 {
      forall j | 0 <= j < |es| && j != k
        ensures es[j] != es[k]
      {
        DistinctAt(es, j, k);
      }
      es[k].UpdateHealth(1);
    }
  }

  /** The obstacle or the wall loop inside the bullet loop. */
  method Collide(b: Bullet, rs: seq<Rect>) returns (remove: bool)
    modifies b`vx, b`vy, b`bouncesRemaining
    ensures remove <==> HitStage(old(b.State()), rs).None?
    ensures !remove ==> b.State() == HitStage(old(b.State()), rs).value
  {
    var k := FirstHit(rs, b.Box());
    remove := k >= 0 && !b.bouncing;
    if k >= 0 && b.bouncing {
      var keepMoving := b.Bounce(rs[k]);
    }
  }

  /** One pass of the bullet loop on bs[p]: the removal decision, and the
      step of a bullet that stays. */
  method ProcessBullet(bs: seq<Bullet>, p: int, es: seq<Enemy>, eb: seq<Rect>, obstacles: seq<Rect>, walls: seq<Rect>)
    returns (remove: bool)
    requires 0 <= p < |bs| && Distinct(bs)
    requires |eb| == |es| && Distinct(es)
    modifies bs`x, bs`y, bs`vx, bs`vy, bs`bouncesRemaining, es`health
    ensures var f := BulletFate(old(bs[p].State()), obstacles, walls, eb);
            (remove <==> f.Removed?) &&
            (!remove ==> bs[p].State() == f.next) &&
            (forall j :: 0 <= j < |es| ==> es[j].health == old(es[j].health) - (if f == Removed(j) then 1 else 0))
    ensures States(bs) == old(States(bs))[p := bs[p].State()]
  {
    var b := bs[p];
    remove := Collide(b, obstacles);
    if !remove {
      remove := Collide(b, walls);
    }
    if !remove {
      var ke := HitEnemy(es, eb, b.Box());
      remove := ke >= 0;
    }
    if !remove && b.Disappear() {
      remove := true;
    }
    if !remove {
      b.MoveBullet();
    }
    forall k | 0 <= k < |bs| && k != p
      ensures bs[k].State() == old(bs[k].State())
    {
      DistinctAt(bs, k, p);
    }
  }

  /** The health of every enemy. */
  function Healths(es: seq<Enemy>): (hs: seq<int>)
    reads es
    ensures |hs| == |es| && forall j :: 0 <= j < |es| ==> hs[j] == es[j].health
  {
    seq(|es|, (i: int) requires 0 <= i < |es| reads es => es[i].health)
  }

  /** After the bullet loop over bs, which left the list kept: the
      survivors of the fates fs in order, each at its next state. */
  ghost predicate BulletsMoved(bs: seq<Bullet>, fs: seq<Fate>, kept: seq<Bullet>)
    reads bs`x, bs`y, bs`vx, bs`vy, bs`bouncesRemaining
  {
    |fs| == |bs| && kept == Select(bs, Surviving(fs)) &&
    forall k :: 0 <= k < |fs| && fs[k].Survives? ==> bs[k].State() == fs[k].next
  }

  /** Every enemy of es has lost one point of health per fate in fs that
      ends on it, counting from the healths h0. */
  ghost predicate EnemiesHit(es: seq<Enemy>, h0: seq<int>, fs: seq<Fate>)
    reads es`health
  {
    |h0| == |es| && forall j :: 0 <= j < |es| ==> es[j].health == h0[j] - Hits(fs, j)
  }

  /** Where the bullet loop over bs, which started from the states and
      healths h0 and meets the fates fs, stands before bullet p: kept holds
      the survivors among the first p bullets followed by the unprocessed
      ones from position i, the processed survivors have their next state,
      the unprocessed bullets their initial one, and every enemy has lost
      one point per hit so far. */
  ghost predicate BulletsLooped(bs: seq<Bullet>, es: seq<Enemy>, states: seq<BulletState>, fs: seq<Fate>,
                                h0: seq<int>, kept: seq<Bullet>, i: int, p: int)
    reads bs, es
  {
    0 <= p <= |bs| && |states| == |bs| && |fs| == |bs| && |h0| == |es| &&
    FilteredUpTo(kept, i, bs, Surviving(fs), p) &&
    (forall k :: 0 <= k < p && fs[k].Survives? ==> States(bs)[k] == fs[k].next) &&
    States(bs)[p..] == states[p..] &&
    forall j :: 0 <= j < |es| ==> es[j].health == h0[j] - Hits(fs[..p], j)
  }

  /** One pass of the bullet loop, with the loop's bookkeeping. */
  method BulletStep(bs: seq<Bullet>, es: seq<Enemy>, eb: seq<Rect>, obstacles: seq<Rect>, walls: seq<Rect>,
                    ghost states: seq<BulletState>, ghost fs: seq<Fate>, ghost h0: seq<int>,
                    p: int, kept: seq<Bullet>, i: int)
    returns (kept': seq<Bullet>, i': int)
    requires Distinct(bs) && Distinct(es) && |eb| == |es|
    requires fs == Fates(states, obstacles, walls, eb)
    requires p < |bs| && BulletsLooped(bs, es, states, fs, h0, kept, i, p)
    modifies bs`x, bs`y, bs`vx, bs`vy, bs`bouncesRemaining, es`health
    ensures FilteredUpTo(kept', i', bs, Surviving(fs), p + 1)
    ensures forall k :: 0 <= k < p + 1 && fs[k].Survives? ==> States(bs)[k] == fs[k].next
    ensures States(bs)[p + 1..] == states[p + 1..]
    ensures forall j :: 0 <= j < |es| ==> es[j].health == h0[j] - Hits(fs[..p + 1], j)
  {
    ghost var keep := Surviving(fs);
    ghost var before := States(bs);
    ghost var hb := Healths(es);
    assert before[p] == before[p..][0] == states[p];
    var remove := ProcessBullet(bs, p, es, eb, obstacles, walls);
    assert States(bs)[p + 1..] == before[p + 1..] == before[p..][1..];
    forall k | 0 <= k < p + 1 && fs[k].Survives?
      ensures States(bs)[k] == fs[k].next
    {
      if k < p {
        assert States(bs)[k] == before[k];
      }
    }
    forall j | 0 <= j < |es|
      ensures es[j].health == h0[j] - Hits(fs[..p + 1], j)
    {
      HitsSnoc(fs, p, j);
      assert hb[j] == h0[j] - Hits(fs[..p], j);
    }
    if remove {
      FilterDrop(kept, i, bs, keep, p);
      kept', i' := kept[..i] + kept[i + 1..], i;
    } else {
      FilterKeep(kept, i, bs, keep, p);
      kept', i' := kept, i + 1;
    }
  }

  /** The bullet loop of move() over the list bs: the bullets that survive,
      in order, each advanced one step; every hit costs an enemy a point. */
  method BulletLoop(bs: seq<Bullet>, es: seq<Enemy>, obstacles: seq<Rect>, walls: seq<Rect>)
    returns (kept: seq<Bullet>)
    requires Distinct(bs) && Distinct(es)
    modifies bs`x, bs`y, bs`vx, bs`vy, bs`bouncesRemaining, es`health
    ensures var fs := Fates(old(States(bs)), obstacles, walls, old(EnemyBoxes(es)));
            BulletsMoved(bs, fs, kept) && EnemiesHit(es, old(Healths(es)), fs)
  {
    ghost var states := States(bs);
    ghost var h0 := Healths(es);
    var eb := EnemyBoxes(es);
    ghost var fs := Fates(states, obstacles, walls, eb);
    ghost var keep := Surviving(fs);
    var p := 0;
    kept := bs;
    var i := 0;
    BulletsLoopStart(bs, es, states, fs, h0);
    while i < |kept|
      invariant BulletsLooped(bs, es, states, fs, h0, kept, i, p)
      invariant |kept| - i == |bs| - p
      decreases |bs| - p
    {
      kept, i := BulletStep(bs, es, eb, obstacles, walls, states, fs, h0, p, kept, i);
      p := p + 1;
    }
    BulletsLoopDone(bs, es, states, fs, h0, kept, i);
  }

  /** The bullet loop starts with every bullet unprocessed and no hits. */
  lemma BulletsLoopStart(bs: seq<Bullet>, es: seq<Enemy>, states: seq<BulletState>, fs: seq<Fate>, h0: seq<int>)
    requires states == States(bs) && h0 == Healths(es) && |fs| == |bs|
    ensures BulletsLooped(bs, es, states, fs, h0, bs, 0, 0)
  {
    assert fs[..0] == [] && bs[..0] == [] && bs[0..] == bs && Surviving(fs)[0..] == Surviving(fs);
    assert States(bs)[0..] == states[0..];
  }

  /** After the last bullet the loop has done all a bullet loop does. */
  lemma BulletsLoopDone(bs: seq<Bullet>, es: seq<Enemy>, states: seq<BulletState>, fs: seq<Fate>, h0: seq<int>,
                        kept: seq<Bullet>, i: int)
    requires BulletsLooped(bs, es, states, fs, h0, kept, i, |bs|)
    ensures BulletsMoved(bs, fs, kept) && EnemiesHit(es, h0, fs)
  {
    FilterDone(kept, i, bs, Surviving(fs));
    assert fs[..|bs|] == fs;
  }

  /** The enemy loop of move(): every enemy steers toward the player's box
      pb. */
  method SteerEnemies(es: seq<Enemy>, pb: Rect, obstacles: seq<Rect>, walls: seq<Rect>, step: StepFn, aim: Aim)
    requires Distinct(Bodies(es))
    modifies Bodies(es)`x, Bodies(es)`y, Bodies(es)`directionFacing, Bodies(es)`moving
    ensures forall j :: 0 <= j < |es| ==>
              es[j].GetPose() == Steered(es[j], old(es[j].GetPose()), pb, obstacles, walls, step, aim)
  {
    for i := 0 to |es|
      invariant forall j :: 0 <= j < i ==>
                  es[j].GetPose() == Steered(es[j], old(es[j].GetPose()), pb, obstacles, walls, step, aim)
      invariant forall j :: i <= j < |es| ==> es[j].GetPose() == old(es[j].GetPose())
    {
      var e := es[i];
      forall j | 0 <= j < |es| && j != i
        ensures es[j].body != e.body
      {
        DistinctAt(Bodies(es), j, i);
      }
      var diag := aim(e.Box(), pb, e.speed);
      e.MoveTowardPlayer(pb, obstacles, walls, step, diag);
    }
  }

  /** No enemy of es appears twice, no two share a body, and none has the
      player's body pb. */
  predicate EnemiesApart(es: seq<Enemy>, pb: Character)
  {
    Distinct(es) &&
    (forall e1, e2 :: e1 in es && e2 in es && e1 != e2 ==> e1.body != e2.body) &&
    (forall e :: e in es ==> e.body != pb)
  }

  /** A new enemy with a body of its own keeps the enemies apart. */
  lemma EnemiesApartSnoc(es: seq<Enemy>, e: Enemy, pb: Character)
    requires EnemiesApart(es, pb) && e !in es && e.body != pb
    requires forall x :: x in es ==> x.body != e.body
    ensures EnemiesApart(es + [e], pb)
  {
    var es' := es + [e];
    forall i, j | 0 <= i < j < |es'|
      ensures Apart(es', i, j)
    {
      if j < |es| {
        DistinctAt(es, i, j);
      } else {
        assert es'[i] == es[i];
      }
    }
  }

  /** A newly built enemy of the spawn step: number `num`, ENEMY_SIZE square
      at `box`, facing down, and the stats of its kind: a boss of level
      `wave` standing still, or a basic enemy with speed `basicSpeed`,
      already walking. */
  predicate NewlyBuilt(e: Enemy, num: int, box: Rect, boss: bool, wave: int, basicSpeed: int)
    reads e, e.body
  {
    e.num == num && e.Box() == box && e.body.directionFacing == DOWN && e.body.frame == 0 &&
    if boss then
      e.kind == Boss(wave) && e.speed == BossSpeed(wave) && e.body.speed == BossSpeed(wave) &&
      e.health == BossHealth(wave) && e.body.shield == BossShield(wave) && !e.body.moving
    else
      e.kind == Kind.Basic && e.speed == basicSpeed && e.body.speed == basicSpeed &&
      e.health == BASIC_HEALTH && e.body.shield == BASIC_SHIELD && e.body.moving
  }

  /** The constructor call of the spawn step: a boss on waves 5, 10, ...,
      a basic enemy otherwise, ENEMY_SIZE square at (x, y). */
  method NewEnemy(x: int, y: int, num: int, wave: int, basicSpeed: int) returns (e: Enemy)
    ensures fresh(e) && fresh(e.body)
    ensures NewlyBuilt(e, num, Rect(x, y, ENEMY_SIZE, ENEMY_SIZE), JavaRem(wave, 5) == 0, wave, basicSpeed)
  {
    if JavaRem(wave, 5) == 0 {
      e := new Enemy.Boss(x, y, ENEMY_SIZE, ENEMY_SIZE, num, wave);
    } else {
      e := new Enemy.Basic(x, y, ENEMY_SIZE, ENEMY_SIZE, basicSpeed, num);
    }
  }

  /** Main.Score: the points and the three digits the read-out draws. */
  class Score {
    var score: int
    var ones: int
    var tens: int
    var hundreds: int

    constructor ()
      ensures score == 0 && ones == 0 && tens == 0 && hundreds == 0
    {
      score, ones, tens, hundreds := 0, 0, 0, 0;
    }

    method UpdateScore(increase: int)
      modifies this`score
      ensures score == old(score) + increase
    {
      score := score + increase;
    }

    /** trackScore: below 1000 points the digits recombine to the score. */
    method TrackScore()
      modifies this`ones, this`tens, this`hundreds
      ensures (hundreds, tens, ones) == Digits(score)
      ensures 0 <= score < 1000 ==> 0 <= hundreds <= 9 && 100 * hundreds + 10 * tens + ones == score
    {
      hundreds := JavaQuot(score, 100);
      tens := JavaQuot(JavaRem(score, 100), 10);
      ones := JavaRem(score, 10);
      if 0 <= score < 1000 {
        DigitsRecombine(score);
      }
    }
  }

  class Game {
    var wave: int
    var enemiesToSpawn: int
    var enemiesSpawnedThisWave: int
    var waveInProgress: bool
    var paused: bool
    var resume: bool
    /** Whether the Swing timer delivers ticks. */
    var timerRunning: bool
    /** The player quit from the pause menu. */
    var exited: bool
    /** The player died and the death screen took over. */
    var gameOver: bool
    /** The animation counter COUNTER. */
    var counter: int
    var enemyNums: int
    var entranceSpawnCounts: map<int, int>
    var enemyDamageCooldown: map<int, int>
    var keysPressed: set<int>
    var enemies: seq<Enemy>
    var bullets: seq<Bullet>
    var powerUpItems: seq<PowerUpItem>
    const player: Player
    /** The field `map` of Main. */
    var arena: MapGenerator
    const score: Score
    /** The basic enemy's speed (2.5 in Main) as an integer step size. */
    const basicSpeed: int

    function Sched(): Schedule
      reads this`wave, this`enemiesToSpawn, this`enemiesSpawnedThisWave, this`waveInProgress,
            this`enemyNums, this`entranceSpawnCounts
    {
      Schedule(wave, enemiesToSpawn, enemiesSpawnedThisWave, waveInProgress, enemyNums, entranceSpawnCounts)
    }

    function ControlState(): Controls
      reads this`waveInProgress, this`paused, this`resume, this`timerRunning, this`exited, this`keysPressed
    {
      Controls(waveInProgress, paused, resume, timerRunning, exited, keysPressed)
    }

    /** The wave bookkeeping is consistent. */
    predicate ScheduleValid()
      reads this`wave, this`enemiesToSpawn, this`enemiesSpawnedThisWave, this`waveInProgress,
            this`enemyNums, this`entranceSpawnCounts
    {
      ScheduleOk(Sched())
    }

    /** The map has its fixed parts and valid obstacles, and the player
        moves in the 900 x 900 panel. */
    ghost predicate ArenaValid()
      reads this`arena, arena
    {
      arena.Valid() && player.panelWidth == GAME_WIDTH && player.panelHeight == GAME_HEIGHT
    }

    /** No enemy appears twice, no two enemies share a body, and none
        shares the player's. */
    predicate EnemiesValid()
      reads this`enemies
    {
      EnemiesApart(enemies, player.body)
    }

    ghost predicate Valid()
      reads this, arena
    {
      ScheduleValid() && CooldownsInRange(enemyDamageCooldown) && ArenaValid() && 0 <= counter < FRAME_REFRESH_RATE &&
      Distinct(bullets) && EnemiesValid()
    }

    /** setup(): the player in the middle, the level-1 map, wave 1 waiting
        for J.  `draws` stands for the map's random tile choices.  COUNTER
        is static in Main, so a game started after another one inherits its
        value, somewhere in 0..7; the first game starts it at 0. */
    constructor (basicSpeed: int, draws: seq<(int, int)>, counter0: int)
      requires Layout(GAME_ROWS, GAME_COLS, GAME_TILE).DrawsInRange(draws)
      requires 0 <= counter0 < FRAME_REFRESH_RATE
      ensures Valid()
      ensures counter == counter0
      ensures Sched() == InitialSchedule()
      ensures ControlState() == Controls(false, false, true, false, false, {})
      ensures player.body.Box() == Rect(PLAYER_START, PLAYER_START, PLAYER_SIZE, PLAYER_SIZE)
      ensures player.body.health == MAX_POINTS && player.body.shield == MAX_POINTS
      ensures player.body.speed == PLAYER_SPEED && player.powerUps == []
      ensures enemies == [] && bullets == [] && powerUpItems == [] && score.score == 0
      ensures arena.rows == GAME_ROWS && arena.cols == GAME_COLS && arena.tileSize == GAME_TILE
      ensures arena.level == 1 && arena.obstacles == Placed(arena.Lay(), [], ObstacleTarget(1), draws)
    {
      player := new Player(PLAYER_START, PLAYER_START, PLAYER_SIZE, PLAYER_SIZE, PLAYER_SPEED,
                           GAME_WIDTH, GAME_HEIGHT);
      arena := new MapGenerator(GAME_ROWS, GAME_COLS, GAME_TILE, 1, draws);
      score := new Score();
      this.basicSpeed := basicSpeed;
      enemyNums := 0;
      wave, enemiesToSpawn, enemiesSpawnedThisWave := 1, 2, 0;
      waveInProgress, paused, resume := false, false, true;
      timerRunning, exited, gameOver := false, false, false;
      counter := counter0;
      entranceSpawnCounts, enemyDamageCooldown := map[], map[];
      keysPressed := {};
      enemies, bullets, powerUpItems := [], [], [];
    }

    // ------------------------------------------------------------ move()

    /** move() in two halves: first its bullet loop, with the enemies where
        they stand ... */
    method MoveBullets()
      requires Valid()
      modifies this`bullets, bullets`x, bullets`y, bullets`vx, bullets`vy, bullets`bouncesRemaining, enemies`health
      ensures Valid()
      ensures var fs := Fates(old(States(bullets)), arena.obstacles, arena.walls, old(EnemyBoxes(enemies)));
              BulletsMoved(old(bullets), fs, bullets) && EnemiesHit(enemies, old(Healths(enemies)), fs)
    {
      var bs := bullets;
      ghost var fs := Fates(States(bs), arena.obstacles, arena.walls, EnemyBoxes(enemies));
      ghost var h0 := Healths(enemies);
      var kept := BulletLoop(bs, enemies, arena.obstacles, arena.walls);
      SelectDistinct(bs, Surviving(fs));
      KeepBullets(kept, bs, fs, h0);
    }

    /** The bullets that are left replace the list. */
    method KeepBullets(kept: seq<Bullet>, ghost bs: seq<Bullet>, ghost fs: seq<Fate>, ghost h0: seq<int>)
      requires Valid() && Distinct(kept)
      requires BulletsMoved(bs, fs, kept) && EnemiesHit(enemies, h0, fs)
      modifies this`bullets
      ensures Valid() && bullets == kept
      ensures BulletsMoved(bs, fs, bullets) && EnemiesHit(enemies, h0, fs)
    {
      bullets := kept;
    }

    /** ... then its enemy loop: every enemy steers toward the player. */
    method MoveEnemies(step: StepFn, aim: Aim)
      requires Valid()
      modifies Bodies(enemies)`x, Bodies(enemies)`y, Bodies(enemies)`directionFacing, Bodies(enemies)`moving
      ensures Valid()
      ensures forall j :: 0 <= j < |enemies| ==>
                enemies[j].GetPose() == Steered(enemies[j], old(enemies[j].GetPose()), old(player.body.Box()),
                                                arena.obstacles, arena.walls, step, aim)
    {
      BodiesDistinct();
      SteerEnemies(enemies, player.body.Box(), arena.obstacles, arena.walls, step, aim);
    }

    /** No two enemies share a body. */
    lemma BodiesDistinct()
      requires EnemiesValid()
      ensures Distinct(Bodies(enemies))
    {
      forall i, j | 0 <= i < j < |enemies|
        ensures Apart(Bodies(enemies), i, j)
      {
        DistinctAt(enemies, i, j);
      }
    }

    // ------------------------------------------------ handleSmoothMovement

    /** handleSmoothMovement: the moves for the held keys, then the map
        pushes the player out of walls and obstacles. */
    method HandleSmoothMovement()
      requires Valid()
      modifies player.body`x, player.body`y, player.body`directionFacing
      ensures Valid()
      ensures var ds := SmoothMoves(keysPressed);
              var walked := Walked(old(player.body.Box()), ds, player.body.speed, GAME_WIDTH, GAME_HEIGHT);
              player.body.Box() == BlockAll(BlockAll(walked, arena.walls), NonEntrance(arena.entrances, arena.obstacles)) &&
              player.body.directionFacing == FacingAfter(old(player.body.directionFacing), ds)
    {
      Walk();
      arena.BlockPlayer(player, player.body.directionFacing);
    }

    /** The keys' half of handleSmoothMovement: W with A or D, S with A or D,
        or else each held key on its own, as moves of the player. */
    method Walk()
      modifies player.body`x, player.body`y, player.body`directionFacing
      ensures var ds := SmoothMoves(keysPressed);
              player.body.Box() == Walked(old(player.body.Box()), ds, player.body.speed, GAME_WIDTH, GAME_HEIGHT) &&
              player.body.directionFacing == FacingAfter(old(player.body.directionFacing), ds)
    {
      var up := KEY_W in keysPressed;
      var down := KEY_S in keysPressed;
      var left := KEY_A in keysPressed;
      var right := KEY_D in keysPressed;
      ghost var b0 := player.body.Box();
      ghost var done: seq<int> := [];
      if up && left {
        Go(UP, b0, done);
        done := done + [UP];
        Go(LEFT, b0, done);
        done := done + [LEFT];
      } else if up && right {
        Go(UP, b0, done);
        done := done + [UP];
        Go(RIGHT, b0, done);
        done := done + [RIGHT];
      } else if down && left {
        Go(DOWN, b0, done);
        done := done + [DOWN];
        Go(LEFT, b0, done);
        done := done + [LEFT];
      } else if down && right {
        Go(DOWN, b0, done);
        done := done + [DOWN];
        Go(RIGHT, b0, done);
        done := done + [RIGHT];
      } else {
        if up {
          Go(UP, b0, done);
          done := done + [UP];
        }
        if down {
          Go(DOWN, b0, done);
          done := done + [DOWN];
        }
        if left {
          Go(LEFT, b0, done);
          done := done + [LEFT];
        }
        if right {
          Go(RIGHT, b0, done);
          done := done + [RIGHT];
        }
      }
      assert done == SmoothMoves(keysPressed);
    }

    /** player.move(d, panW, panH), one more move after `done`. */
    method Go(d: int, ghost b0: Rect, ghost done: seq<int>)
      requires player.body.Box() == Walked(b0, done, player.body.speed, GAME_WIDTH, GAME_HEIGHT)
      modifies player.body`x, player.body`y, player.body`directionFacing
      ensures player.body.Box() == Walked(b0, done + [d], player.body.speed, GAME_WIDTH, GAME_HEIGHT)
      ensures player.body.directionFacing == d
    {
      WalkedSnoc(b0, done, d, player.body.speed, GAME_WIDTH, GAME_HEIGHT);
      player.body.Move(d, GAME_WIDTH, GAME_HEIGHT);
    }

    // ---------------------------------------------------------- aliveDead

    /** aliveDead: bullets out of the panel and dead enemies leave their
        lists, and every dead enemy is worth KILL_POINTS. */
    method AliveDead()
      requires Valid()
      modifies this`bullets, this`enemies, score`score
      ensures Valid()
      ensures bullets == Select(old(bullets), old(InBounds(bullets)))
      ensures enemies == Select(old(enemies), old(Living(enemies)))
      ensures score.score == old(score.score) + KILL_POINTS * Dropped(old(Living(enemies)))
      ensures forall e :: e in enemies ==> e.health > 0
    {
      ghost var oe, ke := enemies, Living(enemies);
      SelectDistinct(bullets, InBounds(bullets));
      SelectDistinct(oe, ke);
      SelectSubset(oe, ke);
      AllSelectedLive(oe, ke);
      RemoveOutOfBounds();
      assert Living(enemies) == ke;
      RemoveDead();
    }

    /** The bullet loop of aliveDead, from the back. */
    method RemoveOutOfBounds()
      modifies this`bullets
      ensures bullets == Select(old(bullets), old(InBounds(bullets)))
    {
      ghost var ob := bullets;
      ghost var kb := InBounds(bullets);
      RemoveEnds(ob, kb);
      var i := |bullets| - 1;
      while i >= 0
        invariant -1 <= i < |ob|
        invariant bullets == ob[..i + 1] + Select(ob[i + 1..], kb[i + 1..])
      {
        RemoveStep(bullets, ob, kb, i);
        SelectAt(ob, kb, i);
        if bullets[i].Disappear() {
          bullets := bullets[..i] + bullets[i + 1..];
        }
        i := i - 1;
      }
    }

    /** The enemy loop of aliveDead, from the back. */
    method RemoveDead()
      modifies this`enemies, score`score
      ensures enemies == Select(old(enemies), old(Living(enemies)))
      ensures score.score == old(score.score) + KILL_POINTS * Dropped(old(Living(enemies)))
    {
      ghost var oe := enemies;
      ghost var ke := Living(enemies);
      ghost var s0 := score.score;
      RemoveEnds(oe, ke);
      var i := |enemies| - 1;
      while i >= 0
        invariant -1 <= i < |oe|
        invariant enemies == oe[..i + 1] + Select(oe[i + 1..], ke[i + 1..])
        invariant score.score == s0 + KILL_POINTS * Dropped(ke[i + 1..])
      {
        RemoveStep(enemies, oe, ke, i);
        SelectAt(oe, ke, i);
        if !enemies[i].IsAlive() {
          enemies := enemies[..i] + enemies[i + 1..];
          score.UpdateScore(KILL_POINTS);
        }
        i := i - 1;
      }
    }

    lemma {:induction false} AllSelectedLive(es: seq<Enemy>, keep: seq<bool>)
      requires |es| == |keep|
      requires forall i :: 0 <= i < |es| ==> (keep[i] <==> es[i].health > 0)
      ensures forall e :: e in Select(es, keep) ==> e.health > 0
    {
      if |es| > 0 {
        AllSelectedLive(es[1..], keep[1..]);
      }
    }

    // ------------------------------------------------------------ power-ups

    /** checkPowerUpPickup: items the player touches go, last first, into
        the inventory and leave the floor. */
    method CheckPowerUpPickup()
      requires Valid()
      modifies this`powerUpItems, player`powerUps
      ensures Valid()
      ensures powerUpItems == Select(old(powerUpItems), Untouched(old(powerUpItems), player.body.Box()))
      ensures player.powerUps == old(player.powerUps) + Collected(old(powerUpItems), player.body.Box())
    {
      PickUp();
    }

    /** The loop of checkPowerUpPickup, from the back. */
    method PickUp()
      modifies this`powerUpItems, player`powerUps
      ensures powerUpItems == Select(old(powerUpItems), Untouched(old(powerUpItems), player.body.Box()))
      ensures player.powerUps == old(player.powerUps) + Collected(old(powerUpItems), player.body.Box())
    {
      ghost var items, pb, ps := powerUpItems, player.body.Box(), player.powerUps;
      RemoveEnds(items, Untouched(items, pb));
      CollectedEnds(items, pb);
      var i := |powerUpItems| - 1;
      while i >= 0
        invariant -1 <= i < |items| && PickingUp(items, pb, ps, i)
      {
        PickUpAt(i, items, pb, ps);
        i := i - 1;
      }
    }

    /** The pickup loop's state in the game's fields. */
    ghost predicate PickingUp(items: seq<PowerUpItem>, pb: Rect, ps: seq<InventoryPowerUp>, i: int)
      requires -1 <= i < |items|
      reads this, player, player.body
    {
      PickedUpFrom(powerUpItems, player.powerUps, items, pb, ps, i) && player.body.Box() == pb
    }

    /** One turn of that loop: item i goes into the inventory, and off the
        floor, when the player touches it. */
    method PickUpAt(i: int, ghost items: seq<PowerUpItem>, ghost pb: Rect, ghost ps: seq<InventoryPowerUp>)
      requires 0 <= i < |items| && PickingUp(items, pb, ps, i)
      modifies this`powerUpItems, player`powerUps
      ensures PickingUp(items, pb, ps, i - 1)
    {
      PickUpStep(powerUpItems, player.powerUps, items, pb, ps, i);
      var item := powerUpItems[i];
      if Intersects(player.body.Box(), item.box) {
        player.AddPowerUp(item.powerUp);
        powerUpItems := powerUpItems[..i] + powerUpItems[i + 1..];
      }
    }

    /** spawnPowerUps: the floor is cleared and, when the map has a walkable
        tile, a shotgun and a speed boost appear on the two drawn tiles. */
    method SpawnPowerUps(pick1: nat, pick2: nat)
      requires Valid()
      modifies this`powerUpItems
      ensures Valid()
      ensures powerUpItems == PowerUpDrop(WalkableRows(arena.Lay(), arena.obstacles, arena.walls, arena.rows),
                                          arena.tileSize, pick1, pick2)
    {
      DropPowerUps(pick1, pick2);
    }

    /** The body of spawnPowerUps, which needs only the map's fixed parts. */
    method DropPowerUps(pick1: nat, pick2: nat)
      requires arena.Fixed()
      modifies this`powerUpItems
      ensures powerUpItems == PowerUpDrop(WalkableRows(arena.Lay(), arena.obstacles, arena.walls, arena.rows),
                                          arena.tileSize, pick1, pick2)
    {
      powerUpItems := [];
      var tiles := arena.GetWalkableTiles();
      if |tiles| == 0 {
        return;
      }
      var size := JavaHalf(arena.tileSize);
      var tile1 := tiles[pick1 % |tiles|];
      var tile2 := tiles[pick2 % |tiles|];
      var x1 := tile1.x + JavaHalf(tile1.width - size);
      var y1 := tile1.y + JavaHalf(tile1.height - size);
      var x2 := tile2.x + JavaHalf(tile2.width - size);
      var y2 := tile2.y + JavaHalf(tile2.height - size);
      var shotgun := PowerUpItem(Rect(x1, y1, size, size), PowerUp(Shotgun, ITEM_DURATION));
      var boost := PowerUpItem(Rect(x2, y2, size, size), PowerUp(SpeedBoost(ITEM_SPEED_BOOST), ITEM_DURATION));
      assert [shotgun, boost] == SpawnedItems(tile1, tile2, arena.tileSize);
      powerUpItems := powerUpItems + [shotgun];
      powerUpItems := powerUpItems + [boost];
    }

    // ---------------------------------------------------------- dealDamage

    /** dealDamage: each enemy's cooldown steps in list order, and every hit
        costs the player one point, shield first. */
    method DealDamage()
      requires Valid()
      modifies this`enemyDamageCooldown, player.body`health, player.body`shield
      ensures Valid()
      ensures var r := DamageFold(old(enemyDamageCooldown), old(Contacts(enemies, player.body.Box())));
              enemyDamageCooldown == r.0 &&
              (player.body.health, player.body.shield) ==
                AfterHits(old(player.body.health), old(player.body.shield), r.1)
    {
      DamageFoldInRange(enemyDamageCooldown, Contacts(enemies, player.body.Box()));
      ApplyContacts();
    }

    /** The loop of dealDamage. */
    method ApplyContacts()
      modifies this`enemyDamageCooldown, player.body`health, player.body`shield
      ensures var r := DamageFold(old(enemyDamageCooldown), old(Contacts(enemies, player.body.Box())));
              enemyDamageCooldown == r.0 &&
              (player.body.health, player.body.shield) ==
                AfterHits(old(player.body.health), old(player.body.shield), r.1)
    {
      ghost var pb := player.body.Box();
      ghost var cs := Contacts(enemies, pb);
      ghost var m0 := enemyDamageCooldown;
      ghost var h0, s0 := player.body.health, player.body.shield;
      ghost var hits: nat := 0;
      TakeAll(cs);
      for i := 0 to |enemies|
        invariant Dealt(cs, m0, h0, s0, i, hits) && player.body.Box() == pb
      {
        var hit := ContactAt(i, cs, m0, h0, s0, hits);
        if hit {
          hits := hits + 1;
        }
      }
    }

    /** Where the loop of dealDamage stands after the first i contacts of
        cs, hits of which cost the player a point. */
    ghost predicate Dealt(cs: seq<(int, bool)>, m0: map<int, int>, h0: int, s0: int, i: int, hits: nat)
      requires 0 <= i <= |cs|
      reads this, player.body
    {
      enemyDamageCooldown == DamageFold(m0, cs[..i]).0 && hits == DamageFold(m0, cs[..i]).1 &&
      (player.body.health, player.body.shield) == AfterHits(h0, s0, hits)
    }

    /** One turn of that loop: enemy i, with contact cs[i]. */
    method ContactAt(i: int, ghost cs: seq<(int, bool)>, ghost m0: map<int, int>, ghost h0: int, ghost s0: int,
                     ghost hits: nat) returns (hit: bool)
      requires 0 <= i < |enemies| && i < |cs| && Dealt(cs, m0, h0, s0, i, hits)
      requires cs[i] == (enemies[i].num, Intersects(enemies[i].Box(), player.body.Box()))
      modifies this`enemyDamageCooldown, player.body`health, player.body`shield
      ensures Dealt(cs, m0, h0, s0, i + 1, if hit then hits + 1 else hits)
    {
      var enemy := enemies[i];
      var touching := Intersects(enemy.Box(), player.body.Box());
      TakeSnoc(cs, i);
      DamageFoldSnoc(m0, cs[..i], enemy.num, touching);
      AfterHitsSucc(h0, s0, hits);
      hit := Touch(enemy.GetNum(), touching);
    }

    /** One enemy of dealDamage: its cooldown steps, and a hit costs the
        player a point. */
    method Touch(num: int, touching: bool) returns (hit: bool)
      modifies this`enemyDamageCooldown, player.body`health, player.body`shield
      ensures var st := CooldownStep(GetOrZero(old(enemyDamageCooldown), num), touching);
              hit == st.0 && enemyDamageCooldown == old(enemyDamageCooldown)[num := st.1]
      ensures hit ==> (player.body.health, player.body.shield) ==
                      AbsorbDamage(old(player.body.health), old(player.body.shield), 1)
      ensures !hit ==> player.body.health == old(player.body.health) && player.body.shield == old(player.body.shield)
    {
      var cooldown := if num in enemyDamageCooldown then enemyDamageCooldown[num] else 0;
      hit := false;
      if touching {
        if cooldown == 0 {
          player.body.UpdateHealth(1);
          enemyDamageCooldown := enemyDamageCooldown[num := DAMAGE_RATE];
          hit := true;
        } else {
          enemyDamageCooldown := enemyDamageCooldown[num := cooldown - 1];
        }
      } else {
        enemyDamageCooldown := enemyDamageCooldown[num := 0];
      }
    }

    // ---------------------------------------------------------------- keys

    /** keyPressed */
    method KeyPressed(code: int)
      requires Valid()
      modifies this`waveInProgress, this`paused, this`resume, this`timerRunning, this`exited,
               this`keysPressed, this`bullets, player.body`x, player.body`y,
               player`moving, player`powerUps, player`shotgun, player.body`speed
      ensures Valid()
      ensures ControlState() == KeyPress(old(ControlState()), code).controls
      ensures KeyPress(old(ControlState()), code).startWave ==>
                bullets == [] && player.body.x == PLAYER_START && player.body.y == PLAYER_START
      ensures !KeyPress(old(ControlState()), code).startWave ==>
                player.body.x == old(player.body.x) && player.body.y == old(player.body.y)
      ensures KeyPress(old(ControlState()), code).fire ==> Fired(old(bullets), old(player.Shot()))
      ensures forall k :: |old(bullets)| <= k < |bullets| ==> fresh(bullets[k])
      ensures !KeyPress(old(ControlState()), code).startWave && !KeyPress(old(ControlState()), code).fire ==>
                bullets == old(bullets)
      ensures KeyPress(old(ControlState()), code).usePowerUp ==>
                (player.powerUps, player.GetEffects()) == Used(old(player.powerUps), old(player.GetEffects()))
      ensures !KeyPress(old(ControlState()), code).usePowerUp ==>
                player.powerUps == old(player.powerUps) && player.GetEffects() == old(player.GetEffects())
      ensures player.moving <==> KeyPress(old(ControlState()), code).startMoving || old(player.moving)
    {
      if code == KEY_J && !waveInProgress && !paused {
        StartWave(code);
      } else if code == KEY_I || paused {
        PauseKey(code);
      } else {
        PlayKey(code);
      }
    }

    /** I pauses; while paused, W and S choose between resuming and
        quitting and U confirms the choice. */
    method PauseKey(code: int)
      requires code == KEY_I || paused
      modifies this`paused, this`resume, this`timerRunning, this`exited
      ensures ControlState() == KeyPress(old(ControlState()), code).controls
    {
      if code == KEY_I && !paused {
        timerRunning := false;
        paused := true;
      } else if code == KEY_U && paused && resume {
        paused := false;
        if waveInProgress {
          timerRunning := true;
        }
      } else if code == KEY_U && paused {
        exited := true;
      } else if paused {
        if code == KEY_W && !resume {
          resume := true;
        } else if code == KEY_S && resume {
          resume := false;
        }
      }
    }

    /** The bullets are `before` followed by new bullets that start in the
        states `shot` (see Players.ShotStates). */
    predicate Fired(before: seq<Bullet>, shot: seq<BulletState>)
      reads this`bullets, bullets
    {
      |bullets| == |before| + |shot| && bullets[..|before|] == before &&
      forall k :: 0 <= k < |shot| ==> bullets[|before| + k].State() == shot[k]
    }

    /** J: the wave starts, the bullets vanish and the player is put back
        in the middle. */
    method StartWave(code: int)
      requires Valid() && code == KEY_J && !waveInProgress && !paused
      modifies this`waveInProgress, this`timerRunning, this`bullets, player.body`x, player.body`y
      ensures Valid()
      ensures ControlState() == KeyPress(old(ControlState()), code).controls
      ensures waveInProgress && timerRunning && bullets == []
      ensures player.body.x == PLAYER_START && player.body.y == PLAYER_START
    {
      waveInProgress := true;
      bullets := [];
      timerRunning := true;
      player.body.x := PLAYER_START;
      player.body.y := PLAYER_START;
    }

    /** A key while playing: U fires once per press, O uses a power-up,
        W, A, S and D are held and set the player moving. */
    method PlayKey(code: int)
      requires Valid() && !paused && !(code == KEY_J && !waveInProgress) && code != KEY_I
      modifies this`keysPressed, this`bullets, player`moving, player`powerUps, player`shotgun, player.body`speed
      ensures Valid()
      ensures ControlState() == KeyPress(old(ControlState()), code).controls
      ensures keysPressed == old(keysPressed) + (if code in {KEY_U, KEY_W, KEY_A, KEY_S, KEY_D} then {code} else {})
      ensures code == KEY_U && KEY_U !in old(keysPressed) ==> Fired(old(bullets), old(player.Shot()))
      ensures forall k :: |old(bullets)| <= k < |bullets| ==> fresh(bullets[k])
      ensures !(code == KEY_U && KEY_U !in old(keysPressed)) ==> bullets == old(bullets)
      ensures code == KEY_O ==>
                (player.powerUps, player.GetEffects()) == Used(old(player.powerUps), old(player.GetEffects()))
      ensures code != KEY_O ==>
                player.powerUps == old(player.powerUps) && player.GetEffects() == old(player.GetEffects())
      ensures player.moving <==> code in {KEY_W, KEY_A, KEY_S, KEY_D} || old(player.moving)
    {
      if code == KEY_U && KEY_U !in keysPressed {
        FireShot();
      }
      if code == KEY_U {
        keysPressed := keysPressed + {KEY_U};
      }
      if code == KEY_O {
        player.UsePowerUp();
      }
      if code == KEY_W || code == KEY_A || code == KEY_S || code == KEY_D {
        keysPressed := keysPressed + {code};
        player.SetMoving(true);
      }
    }

    /** The shot of a fresh U press joins the bullets. */
    method FireShot()
      requires Valid()
      modifies this`bullets
      ensures Valid() && Fired(old(bullets), player.Shot())
      ensures forall k :: |old(bullets)| <= k < |bullets| ==> fresh(bullets[k])
    {
      var shot := player.Shoot();
      forall i, j | 0 <= i < j < |bullets + shot|
        ensures Apart(bullets + shot, i, j)
      {
        if j < |bullets| {
          DistinctAt(bullets, i, j);
        }
      }
      bullets := bullets + shot;
    }

    /** keyReleased */
    method KeyReleased(code: int)
      requires Valid()
      modifies this`keysPressed
      ensures Valid()
      ensures ControlState() == KeyRelease(old(ControlState()), code)
    {
      keysPressed := keysPressed - {code};
    }

    // ------------------------------------------------------------- waves

    /** The spawn step of actionPerformed. */
    method SpawnEnemy()
      requires Valid()
      modifies this`entranceSpawnCounts, this`enemyNums, this`enemiesSpawnedThisWave, this`enemies
      ensures Valid()
      ensures var sp := SpawnStep(old(Sched()));
              Sched() == sp.0 &&
              (sp.1.None? ==> enemies == old(enemies)) &&
              (sp.1.Some? ==>
                 |enemies| == |old(enemies)| + 1 && enemies[..|old(enemies)|] == old(enemies) &&
                 var e := enemies[|old(enemies)|];
                 var o := sp.1.value;
                 fresh(e) && fresh(e.body) &&
                 NewlyBuilt(e, o.num, SpawnBox(arena.GetClearSpawnPoint(o.entrance, ENEMY_SIZE), o.entrance, o.count),
                            o.boss, wave, basicSpeed))
    {
      SpawnStepKeepsScheduleOk(Sched());
      ghost var cd, ob := enemyDamageCooldown, arena.obstacles;
      SpawnOne();
      assert enemyDamageCooldown == cd && arena.obstacles == ob;
    }

    /** The body of the spawn step. */
    method SpawnOne()
      requires EnemiesValid() && ScheduleValid() && arena.Fixed()
      modifies this`entranceSpawnCounts, this`enemyNums, this`enemiesSpawnedThisWave, this`enemies
      ensures EnemiesValid()
      ensures var sp := SpawnStep(old(Sched()));
              Sched() == sp.0 &&
              (sp.1.None? ==> enemies == old(enemies)) &&
              (sp.1.Some? ==>
                 |enemies| == |old(enemies)| + 1 && enemies[..|old(enemies)|] == old(enemies) &&
                 var e := enemies[|old(enemies)|];
                 var o := sp.1.value;
                 fresh(e) && fresh(e.body) &&
                 NewlyBuilt(e, o.num, SpawnBox(arena.GetClearSpawnPoint(o.entrance, ENEMY_SIZE), o.entrance, o.count),
                            o.boss, wave, basicSpeed))
    {
      if waveInProgress && enemiesSpawnedThisWave < enemiesToSpawn {
        var entranceIndex := JavaRem(enemyNums, 4);
        var count := GetOrZero(entranceSpawnCounts, entranceIndex);
        var baseSpawn := arena.GetClearSpawnPoint(entranceIndex, ENEMY_SIZE);
        var spawnX, spawnY := baseSpawn.x, baseSpawn.y;
        if entranceIndex == 0 || entranceIndex == 1 {
          spawnX := spawnX + count * SPAWN_SPACING;
        } else if entranceIndex == 2 || entranceIndex == 3 {
          spawnY := spawnY + count * SPAWN_SPACING;
        }
        entranceSpawnCounts := entranceSpawnCounts[entranceIndex := count + 1];
        var e := NewEnemy(spawnX, spawnY, enemyNums, wave, basicSpeed);
        assert e.Box() == SpawnBox(baseSpawn, entranceIndex, count);
        EnemiesApartSnoc(enemies, e, player.body);
        enemies := enemies + [e];
        enemyNums := enemyNums + 1;
        enemiesSpawnedThisWave := enemiesSpawnedThisWave + 1;
      }
    }

    /** The wave-end step of actionPerformed.  `draws` stand for the random
        choices of a new map, `pick1` and `pick2` for the power-up tiles. */
    method EndWave(draws: seq<(int, int)>, pick1: nat, pick2: nat)
      requires Valid() && Layout(GAME_ROWS, GAME_COLS, GAME_TILE).DrawsInRange(draws)
      modifies this`wave, this`enemiesToSpawn, this`enemiesSpawnedThisWave, this`entranceSpawnCounts,
               this`waveInProgress, this`timerRunning, this`bullets, this`arena, this`powerUpItems, arena`level
      ensures Valid()
      ensures var we := old(WaveEnd(Sched(), |enemies|));
              Sched() == we.0 &&
              (we.1.None? ==>
                 bullets == old(bullets) && arena == old(arena) && arena.level == old(arena.level) &&
                 powerUpItems == old(powerUpItems) && timerRunning == old(timerRunning)) &&
              (we.1.Some? ==>
                 var fx := we.1.value;
                 bullets == [] &&
                 timerRunning == (old(timerRunning) && !fx.stopTimer) &&
                 (fx.rebuildLevel.Some? ==>
                    fresh(arena) && arena.level == fx.rebuildLevel.value &&
                    arena.obstacles == Placed(arena.Lay(), [], ObstacleTarget(arena.level), draws)) &&
                 (fx.rebuildLevel.None? ==> arena == old(arena) && arena.level == wave) &&
                 (fx.spawnPowerUps ==>
                    powerUpItems == PowerUpDrop(WalkableRows(arena.Lay(), arena.obstacles, arena.walls, arena.rows),
                                                arena.tileSize, pick1, pick2)) &&
                 (!fx.spawnPowerUps ==> powerUpItems == old(powerUpItems)))
    {
      WaveEndKeepsScheduleOk(Sched(), |enemies|);
      ghost var cd := enemyDamageCooldown;
      NextWave(draws, pick1, pick2);
      assert enemyDamageCooldown == cd;
    }

    /** The body of the wave-end step. */
    method NextWave(draws: seq<(int, int)>, pick1: nat, pick2: nat)
      requires arena.Valid() && Layout(GAME_ROWS, GAME_COLS, GAME_TILE).DrawsInRange(draws)
      modifies this`wave, this`enemiesToSpawn, this`enemiesSpawnedThisWave, this`entranceSpawnCounts,
               this`waveInProgress, this`timerRunning, this`bullets, this`arena, this`powerUpItems, arena`level
      ensures arena.Valid()
      ensures var we := old(WaveEnd(Sched(), |enemies|));
              Sched() == we.0 &&
              (we.1.None? ==>
                 bullets == old(bullets) && arena == old(arena) && arena.level == old(arena.level) &&
                 powerUpItems == old(powerUpItems) && timerRunning == old(timerRunning)) &&
              (we.1.Some? ==>
                 var fx := we.1.value;
                 bullets == [] &&
                 timerRunning == (old(timerRunning) && !fx.stopTimer) &&
                 (fx.rebuildLevel.Some? ==>
                    fresh(arena) && arena.level == fx.rebuildLevel.value &&
                    arena.obstacles == Placed(arena.Lay(), [], ObstacleTarget(arena.level), draws)) &&
                 (fx.rebuildLevel.None? ==> arena == old(arena) && arena.level == wave) &&
                 (fx.spawnPowerUps ==>
                    powerUpItems == PowerUpDrop(WalkableRows(arena.Lay(), arena.obstacles, arena.walls, arena.rows),
                                                arena.tileSize, pick1, pick2)) &&
                 (!fx.spawnPowerUps ==> powerUpItems == old(powerUpItems)))
    {
      ghost var we := WaveEnd(Sched(), |enemies|);
      if enemiesSpawnedThisWave == enemiesToSpawn && |enemies| == 0 {
        AdvanceWave();
        ghost var sc, bs := Sched(), bullets;
        assert sc == we.0;
        if JavaRem(wave, 5) == 1 {
          arena := new MapGenerator(GAME_ROWS, GAME_COLS, GAME_TILE, wave / 5 + 1, draws);
        }
        if wave >= 3 && JavaRem(wave, 3) == 0 {
          DropPowerUps(pick1, pick2);
        }
        assert Sched() == sc && bullets == bs;
      }
    }

    /** The first part of the wave end: after a boss wave play stops, the
        wave number goes up, the bullets vanish, the map learns the new
        level and the new wave's quota is set. */
    method AdvanceWave()
      requires enemiesSpawnedThisWave == enemiesToSpawn
      modifies this`wave, this`enemiesToSpawn, this`enemiesSpawnedThisWave, this`entranceSpawnCounts,
               this`waveInProgress, this`timerRunning, this`bullets, arena`level
      ensures Sched() == WaveEnd(old(Sched()), 0).0
      ensures timerRunning == (old(timerRunning) && JavaRem(old(wave), 5) != 0)
      ensures bullets == [] && arena.level == wave
    {
      if JavaRem(wave, 5) == 0 {
        timerRunning := false;
        waveInProgress := false;
      }
      wave := wave + 1;
      bullets := [];
      arena.UpdateLevel(wave);
      if JavaRem(wave, 5) == 0 {
        enemiesToSpawn := wave / 5;
      } else {
        enemiesToSpawn := wave + 1;
      }
      enemiesSpawnedThisWave := 0;
      entranceSpawnCounts := map[];
    }

    /** The animation step: every enemy's frame flips. */
    method ChangeEnemyFrames()
      requires Valid()
      modifies set e | e in enemies :: e.body
      ensures Valid()
      ensures forall j :: 0 <= j < |enemies| ==>
                enemies[j].GetPose() == old(enemies[j].GetPose()) &&
                enemies[j].body.frame == JavaRem(old(enemies[j].body.frame) + 1, 2)
    {
      for i := 0 to |enemies|
        invariant forall j :: 0 <= j < |enemies| ==> enemies[j].GetPose() == old(enemies[j].GetPose())
        invariant forall j :: 0 <= j < i ==> enemies[j].body.frame == JavaRem(old(enemies[j].body.frame) + 1, 2)
        invariant forall j :: i <= j < |enemies| ==> enemies[j].body.frame == old(enemies[j].body.frame)
      {
        forall j | 0 <= j < |enemies| && j != i
          ensures enemies[j].body != enemies[i].body
        {
          DistinctAt(enemies, j, i);
        }
        enemies[i].ChangeFrame();
      }
    }

    // ------------------------------------------------------ actionPerformed

    /** actionPerformed: one timer tick.  A dead player ends the game;
        otherwise the upkeep runs, then at most one enemy spawns, the wave may
        end, and the player, the bullets and the enemies move. */
    method Tick(step: StepFn, aim: Aim, draws: seq<(int, int)>, pick1: nat, pick2: nat)
      requires Valid() && Layout(GAME_ROWS, GAME_COLS, GAME_TILE).DrawsInRange(draws)
      modifies this, player, player.body, score, arena, bullets, enemies, set e | e in enemies :: e.body
      ensures Valid()
      ensures !old(player.body.IsAlive()) ==> gameOver && !timerRunning && Sched() == old(Sched())
      ensures old(player.body.IsAlive()) ==>
                var sp := SpawnStep(old(Sched())).0;
                Sched() == sp || Sched() == WaveEnd(sp, 0).0
      ensures old(player.body.IsAlive()) ==>
                counter == if old(counter) + 1 == FRAME_REFRESH_RATE then 0 else old(counter) + 1
    {
      if !player.body.IsAlive() {
        timerRunning := false;
        gameOver := true;
        return;
      }
      ghost var bodies := set e | e in enemies :: e.body;
      Upkeep();
      assert forall e :: e in enemies ==> e.body in bodies;
      assert forall i :: 0 <= i < |bullets| ==> bullets[i] in old(bullets);
      assert forall i :: 0 <= i < |enemies| ==> enemies[i] in old(enemies);
      Advance(step, aim, draws, pick1, pick2);
    }

    /** The first half of a tick: the animation, then the fight. */
    method Upkeep()
      requires Valid()
      modifies this`counter, this`enemyDamageCooldown, this`bullets, this`enemies, this`powerUpItems,
               player, player.body, score`score, set e | e in enemies :: e.body
      ensures Valid()
      ensures Sched() == old(Sched())
      ensures counter == if old(counter) + 1 == FRAME_REFRESH_RATE then 0 else old(counter) + 1
      ensures player.moving == (old(player.moving) && keysPressed != {})
      ensures player.frame == if old(counter) + 1 == FRAME_REFRESH_RATE then JavaRem(old(player.frame) + 1, 2)
                              else old(player.frame)
      ensures forall b :: b in bullets ==> b in old(bullets)
      ensures forall e :: e in enemies ==> e in old(enemies)
    {
      Animate();
      ghost var sc, c := Sched(), counter;
      Fight();
      assert Sched() == sc && counter == c;
    }

    /** With no key held the player stops; the animation counter steps and
        every eighth tick flips the player's and the enemies' frames. */
    method Animate()
      requires Valid()
      modifies this`counter, player`moving, player`frame, set e | e in enemies :: e.body
      ensures Valid()
      ensures counter == if old(counter) + 1 == FRAME_REFRESH_RATE then 0 else old(counter) + 1
      ensures player.moving == (old(player.moving) && keysPressed != {})
      ensures old(counter) + 1 == FRAME_REFRESH_RATE ==>
                player.frame == JavaRem(old(player.frame) + 1, 2) &&
                forall j :: 0 <= j < |enemies| ==> enemies[j].body.frame == JavaRem(old(enemies[j].body.frame) + 1, 2)
      ensures old(counter) + 1 != FRAME_REFRESH_RATE ==>
                player.frame == old(player.frame) &&
                forall j :: 0 <= j < |enemies| ==> enemies[j].body.frame == old(enemies[j].body.frame)
    {
      if keysPressed == {} {
        player.SetMoving(false);
      }
      counter := counter + 1;
      if counter == FRAME_REFRESH_RATE {
        counter := 0;
        player.ChangeFrame();
        ChangeEnemyFrames();
      }
    }

    /** Contact damage, the clean-up, the pickup and the power-up timers;
        the lists only lose members. */
    method Fight()
      requires Valid()
      modifies this`enemyDamageCooldown, this`bullets, this`enemies, this`powerUpItems,
               player`powerUps, player`shotgun, player.body`health, player.body`shield, player.body`speed,
               score`score
      ensures Valid()
      ensures forall b :: b in bullets ==> b in old(bullets)
      ensures forall e :: e in enemies ==> e in old(enemies)
    {
      DealDamage();
      ghost var ob, oe := bullets, enemies;
      ghost var kb, ke := InBounds(bullets), Living(enemies);
      AliveDead();
      SelectSubset(ob, kb);
      SelectSubset(oe, ke);
      PowerUpUpkeep();
    }

    /** The pickup, then the inventory's timers run down. */
    method PowerUpUpkeep()
      requires Valid()
      modifies this`powerUpItems, player`powerUps, player`shotgun, player.body`speed
      ensures Valid()
      ensures powerUpItems == Select(old(powerUpItems), Untouched(old(powerUpItems), player.body.Box()))
      ensures var inventory := old(player.powerUps) + Collected(old(powerUpItems), player.body.Box());
              player.powerUps == TickList(inventory) &&
              player.GetEffects() == TickEffects(inventory, old(player.GetEffects()))
    {
      CheckPowerUpPickup();
      player.UpdatePowerUps();
    }

    /** The second half of a tick: the spawn step, the wave-end step, the
        player's movement and move(). */
    method Advance(step: StepFn, aim: Aim, draws: seq<(int, int)>, pick1: nat, pick2: nat)
      requires Valid() && Layout(GAME_ROWS, GAME_COLS, GAME_TILE).DrawsInRange(draws)
      modifies this, player.body, arena, bullets, enemies, set e | e in enemies :: e.body
      ensures Valid()
      ensures var sp := SpawnStep(old(Sched())).0;
              Sched() == sp || Sched() == WaveEnd(sp, 0).0
      ensures counter == old(counter)
    {
      ghost var bodies := set e | e in enemies :: e.body;
      Reschedule(draws, pick1, pick2);
      assert forall i :: 0 <= i < |bullets| ==> bullets[i] in old(bullets);
      forall i | 0 <= i < |enemies|
        ensures enemies[i] in old(enemies) || fresh(enemies[i])
        ensures Bodies(enemies)[i] in bodies || fresh(Bodies(enemies)[i])
      {
      }
      ghost var sc, c := Sched(), counter;
      Motion(step, aim);
      assert Sched() == sc && counter == c;
    }

    /** The spawn step, then the wave-end step: the lists gain only new
        enemies and lose nothing but bullets. */
    method Reschedule(draws: seq<(int, int)>, pick1: nat, pick2: nat)
      requires Valid() && Layout(GAME_ROWS, GAME_COLS, GAME_TILE).DrawsInRange(draws)
      modifies this`entranceSpawnCounts, this`enemyNums, this`enemiesSpawnedThisWave, this`enemies,
               this`wave, this`enemiesToSpawn, this`waveInProgress, this`timerRunning, this`bullets,
               this`arena, this`powerUpItems, arena`level
      ensures Valid()
      ensures var sp := SpawnStep(old(Sched())).0;
              Sched() == sp || Sched() == WaveEnd(sp, 0).0
      ensures forall b :: b in bullets ==> b in old(bullets)
      ensures forall e :: e in enemies ==> e in old(enemies) || (fresh(e) && fresh(e.body))
    {
      ghost var oe := enemies;
      SpawnEnemy();
      ghost var s1, es := Sched(), enemies;
      assert forall e :: e in es ==> e in oe || (fresh(e) && fresh(e.body));
      EndWave(draws, pick1, pick2);
      assert Sched() == s1 || Sched() == WaveEnd(s1, 0).0;
      assert enemies == es;
    }

    /** handleSmoothMovement, then move(). */
    method Motion(step: StepFn, aim: Aim)
      requires Valid()
      modifies this`bullets, player.body, bullets, enemies, Bodies(enemies)
      ensures Valid()
    {
      HandleSmoothMovement();
      MoveBullets();
      MoveEnemies(step, aim);
    }
  }
}
