/** The rules the game loop of Main.java applies on every timer tick and
    key event, as pure functions: wave scheduling, contact damage, the
    collision order of one bullet, key handling, smooth movement, power-up
    pickup and the score read-out. */
module GameRules {
  import opened Geometry
  import opened JavaInt
  import opened Characters
  import opened Bullets
  import opened Players
  import opened KeyEvents
  import opened Wrappers

  const GAME_WIDTH: int := 900
  const GAME_HEIGHT: int := 900
  /** Ticks an enemy in contact waits between two hits on the player. */
  const DAMAGE_RATE: int := 30
  /** Ticks between two animation frames. */
  const FRAME_REFRESH_RATE: int := 8
  const ENEMY_SIZE: int := 75
  /** Distance between two enemies spawned at the same entrance. */
  const SPAWN_SPACING: int := 80
  const KILL_POINTS: int := 10
  const PLAYER_SIZE: int := 70
  const PLAYER_SPEED: int := 5
  const PLAYER_START: int := (GAME_WIDTH - PLAYER_SIZE) / 2
  /** Ticks a spawned power-up lasts once activated, and the boost of the speed item. */
  const ITEM_DURATION: int := 1000
  const ITEM_SPEED_BOOST: int := 3

  // ---------------------------------------------------------------- lists

  /** Positions i and j of xs hold different elements. */
  predicate Apart<T(==)>(xs: seq<T>, i: int, j: int)
    requires 0 <= i < |xs| && 0 <= j < |xs|
  {
    xs[i] != xs[j]
  }

  /** No element appears twice.  The quantifier fires only on Apart terms,
      which DistinctAt supplies where a proof needs two positions apart. */
  predicate Distinct<T(==)>(xs: seq<T>)
  {
    forall i, j {:trigger Apart(xs, i, j)} :: 0 <= i < j < |xs| ==> Apart(xs, i, j)
  }

  lemma DistinctAt<T>(xs: seq<T>, i: int, j: int)
    requires Distinct(xs) && 0 <= i < |xs| && 0 <= j < |xs| && i != j
    ensures xs[i] != xs[j]
  {
    if i < j {
      assert Apart(xs, i, j);
    } else {
      assert Apart(xs, j, i);
    }
  }

  /** The elements whose flag is set, in order: what a loop calling
      `remove` on the others leaves in an ArrayList. */
  function Select<T>(xs: seq<T>, keep: seq<bool>): (r: seq<T>)
    requires |xs| == |keep|
    ensures |r| <= |xs|
    ensures (forall i :: 0 <= i < |keep| ==> keep[i]) ==> r == xs
  {
    if |xs| == 0 then []
    else (if keep[0] then [xs[0]] else []) + Select(xs[1..], keep[1..])
  }

  /** Number of cleared flags: how many elements were removed. */
  function Dropped(keep: seq<bool>): (n: nat)
    ensures n <= |keep|
  {
    if |keep| == 0 then 0
    else (if keep[0] then 0 else 1) + Dropped(keep[1..])
  }

  /** What is kept and what is dropped add up to the whole list. */
  lemma {:induction false} SelectLength<T>(xs: seq<T>, keep: seq<bool>)
    requires |xs| == |keep|
    ensures |Select(xs, keep)| + Dropped(keep) == |xs|
  {
    if |xs| > 0 {
      SelectLength(xs[1..], keep[1..]);
    }
  }

  /** Every flagged element is kept. */
  lemma {:induction false} SelectKeeps<T>(xs: seq<T>, keep: seq<bool>, i: int)
    requires |xs| == |keep| && 0 <= i < |xs| && keep[i]
    ensures xs[i] in Select(xs, keep)
  {
    if i > 0 {
      SelectKeeps(xs[1..], keep[1..], i - 1);
    }
  }

  /** Only elements of the list are kept. */
  lemma {:induction false} SelectSubset<T>(xs: seq<T>, keep: seq<bool>)
    requires |xs| == |keep|
    ensures forall x :: x in Select(xs, keep) ==> x in xs
  {
    if |xs| > 0 {
      SelectSubset(xs[1..], keep[1..]);
    }
  }

  /** Select on a suffix, one element at a time. */
  lemma SelectAt<T>(xs: seq<T>, keep: seq<bool>, i: int)
    requires |xs| == |keep| && 0 <= i < |xs|
    ensures Select(xs[i..], keep[i..]) == (if keep[i] then [xs[i]] else []) + Select(xs[i + 1..], keep[i + 1..])
    ensures Dropped(keep[i..]) == (if keep[i] then 0 else 1) + Dropped(keep[i + 1..])
  {
    assert xs[i..][1..] == xs[i + 1..] && keep[i..][1..] == keep[i + 1..];
  }

  /** A prefix one element longer. */
  lemma TakeAll<T>(s: seq<T>)
    ensures s[..0] == [] && s[..|s|] == s
  {
  }

  lemma TakeSnoc<T>(s: seq<T>, i: int)
    requires 0 <= i < |s|
    ensures s[..i + 1] == s[..i] + [s[i]]
  {
  }

  /** A removal loop from the back starts with the whole list and ends
      with the kept elements. */
  lemma RemoveEnds<T>(xs: seq<T>, keep: seq<bool>)
    requires |xs| == |keep|
    ensures xs[..|xs|] + Select(xs[|xs|..], keep[|xs|..]) == xs
    ensures xs[..0] + Select(xs[0..], keep[0..]) == Select(xs, keep)
    ensures Dropped(keep[|xs|..]) == 0 && Dropped(keep[0..]) == Dropped(keep)
  {
    assert xs[|xs|..] == [] && keep[|xs|..] == [] && xs[..|xs|] == xs;
    assert xs[..0] == [] && xs[0..] == xs && keep[0..] == keep;
  }

  /** One step of a removal loop that runs from the back: the prefix up
      to i is untouched, the part after it already filtered. */
  lemma RemoveStep<T>(cur: seq<T>, xs: seq<T>, keep: seq<bool>, i: int)
    requires |xs| == |keep| && 0 <= i < |xs|
    requires cur == xs[..i + 1] + Select(xs[i + 1..], keep[i + 1..])
    ensures i < |cur| && cur[i] == xs[i]
    ensures keep[i] ==> cur == xs[..i] + Select(xs[i..], keep[i..])
    ensures !keep[i] ==> cur[..i] + cur[i + 1..] == xs[..i] + Select(xs[i..], keep[i..])
  {
    SelectAt(xs, keep, i);
    var rest := Select(xs[i + 1..], keep[i + 1..]);
    assert xs[..i + 1] == xs[..i] + [xs[i]];
    assert cur == xs[..i] + ([xs[i]] + rest);
    assert cur[..i] == xs[..i] && cur[i + 1..] == rest;
  }

  /** A removal loop that runs from the front keeps kept[..i] equal to what
      survives of xs[..p], and kept[i..] equal to xs[p..], still untouched. */
  predicate FilteredUpTo<T(==)>(kept: seq<T>, i: int, xs: seq<T>, keep: seq<bool>, p: int)
    requires |xs| == |keep| && 0 <= p <= |xs|
  {
    0 <= i <= |kept| && kept[i..] == xs[p..] && Select(xs, keep) == kept[..i] + Select(xs[p..], keep[p..])
  }

  /** The loop meets xs[p] at position i. */
  lemma FilterHead<T>(kept: seq<T>, i: int, xs: seq<T>, keep: seq<bool>, p: int)
    requires |xs| == |keep| && 0 <= p < |xs| && FilteredUpTo(kept, i, xs, keep, p)
    ensures i < |kept| && kept[i] == xs[p]
  {
    assert kept[i..][0] == xs[p..][0];
  }

  /** Keeping xs[p] means moving past it. */
  lemma FilterKeep<T>(kept: seq<T>, i: int, xs: seq<T>, keep: seq<bool>, p: int)
    requires |xs| == |keep| && 0 <= p < |xs| && FilteredUpTo(kept, i, xs, keep, p) && keep[p]
    ensures i < |kept| && FilteredUpTo(kept, i + 1, xs, keep, p + 1)
  {
    FilterHead(kept, i, xs, keep, p);
    SelectAt(xs, keep, p);
    DropSucc(kept, i);
    DropSucc(xs, p);
    TakeSnoc(kept, i);
    AppendAssoc(kept[..i], [xs[p]], Select(xs[p + 1..], keep[p + 1..]));
  }

  /** Dropping xs[p] means removing it at position i. */
  lemma FilterDrop<T>(kept: seq<T>, i: int, xs: seq<T>, keep: seq<bool>, p: int)
    requires |xs| == |keep| && 0 <= p < |xs| && FilteredUpTo(kept, i, xs, keep, p) && !keep[p]
    ensures i < |kept| && FilteredUpTo(kept[..i] + kept[i + 1..], i, xs, keep, p + 1)
  {
    FilterHead(kept, i, xs, keep, p);
    SelectAt(xs, keep, p);
    DropSucc(kept, i);
    DropSucc(xs, p);
    CutOut(kept, i);
  }

  /** One element fewer from the front. */
  lemma DropSucc<T>(s: seq<T>, n: int)
    requires 0 <= n < |s|
    ensures s[n + 1..] == s[n..][1..]
  {
  }

  /** Cutting out position i leaves what lay before it and what lay after it. */
  lemma CutOut<T>(s: seq<T>, i: int)
    requires 0 <= i < |s|
    ensures (s[..i] + s[i + 1..])[..i] == s[..i] && (s[..i] + s[i + 1..])[i..] == s[i + 1..]
  {
  }

  lemma AppendAssoc<T>(a: seq<T>, b: seq<T>, c: seq<T>)
    ensures a + (b + c) == (a + b) + c
  {
  }

  /** A finished removal loop holds exactly the kept elements. */
  lemma FilterDone<T>(kept: seq<T>, i: int, xs: seq<T>, keep: seq<bool>)
    requires |xs| == |keep| && FilteredUpTo(kept, i, xs, keep, |xs|)
    ensures kept == Select(xs, keep)
  {
    assert kept[..i] == kept;
  }

  /** Removing elements from a list without repeats leaves a list without repeats. */
  lemma {:induction false} SelectDistinct<T>(xs: seq<T>, keep: seq<bool>)
    requires |xs| == |keep| && Distinct(xs)
    ensures Distinct(Select(xs, keep))
  {
    if |xs| > 0 {
      forall i, j | 0 <= i < j < |xs| - 1
        ensures Apart(xs[1..], i, j)
      {
        DistinctAt(xs, i + 1, j + 1);
      }
      SelectDistinct(xs[1..], keep[1..]);
      SelectSubset(xs[1..], keep[1..]);
      var tail := Select(xs[1..], keep[1..]);
      forall k | 0 <= k < |xs| - 1
        ensures xs[1..][k] != xs[0]
      {
        DistinctAt(xs, 0, k + 1);
      }
      assert xs[0] !in tail;
      var r := Select(xs, keep);
      forall i, j | 0 <= i < j < |r|
        ensures Apart(r, i, j)
      {
        if keep[0] && i == 0 {
          assert r[j] == tail[j - 1];
        } else if keep[0] {
          DistinctAt(tail, i - 1, j - 1);
        } else {
          DistinctAt(tail, i, j);
        }
      }
    }
  }

  /** HashMap.getOrDefault(k, 0). */
  function GetOrZero(m: map<int, int>, k: int): (v: int)
    ensures k !in m ==> v == 0
    ensures k in m ==> v == m[k]
  {
    if k in m then m[k] else 0
  }

  // ------------------------------------------------------------- waves

  /** Enemies in a wave: a fifth of the wave number on a boss wave (every
      fifth wave), one more than the wave number otherwise. */
  function Quota(wave: int): (q: int)
    ensures wave >= 1 ==> q >= 1
    ensures JavaRem(wave, 5) == 0 ==> 5 * q == wave
    ensures JavaRem(wave, 5) != 0 ==> q == wave + 1
  {
    if JavaRem(wave, 5) == 0 then wave / 5 else wave + 1
  }

  /** The wave bookkeeping of Main: the wave number, the enemies to spawn in
      it, those spawned so far, whether a wave runs, the next enemy number
      and how many enemies each entrance has spawned this wave. */
  datatype Schedule = Schedule(wave: int, quota: int, spawned: int, inProgress: bool,
                               enemyNums: int, counts: map<int, int>)

  /** Spawns per entrance (0 top, 1 bottom, 2 left, 3 right) summed. */
  function Total(m: map<int, int>): int
  {
    GetOrZero(m, 0) + GetOrZero(m, 1) + GetOrZero(m, 2) + GetOrZero(m, 3)
  }

  /** What the scheduler keeps true from tick to tick. */
  predicate ScheduleOk(s: Schedule)
  {
    s.wave >= 1 && s.quota == Quota(s.wave) && 0 <= s.spawned <= s.quota && s.enemyNums >= 0 &&
    (forall k :: k in s.counts ==> 0 <= k < 4 && s.counts[k] >= 0) &&
    Total(s.counts) == s.spawned
  }

  /** The schedule set up by Main's constructor: wave 1, two enemies, not started. */
  function InitialSchedule(): (s: Schedule)
    ensures ScheduleOk(s) && !s.inProgress && s.spawned == 0
  {
    Schedule(1, 2, 0, false, 0, map[])
  }

  /** An enemy the scheduler orders: its entrance, how many that entrance
      spawned before it this wave, its number and whether it is a boss. */
  datatype SpawnOrder = SpawnOrder(entrance: int, count: int, num: int, boss: bool)

  /** The spawn step of a tick: while a wave runs and its quota is not
      met, one enemy at entrance enemyNums % 4. */
  function SpawnStep(s: Schedule): (r: (Schedule, Option<SpawnOrder>))
    ensures r.1.Some? <==> s.inProgress && s.spawned < s.quota
    ensures r.1.None? ==> r.0 == s
    ensures r.1.Some? ==>
              r.0.spawned == s.spawned + 1 && r.0.enemyNums == s.enemyNums + 1 &&
              r.0.wave == s.wave && r.0.quota == s.quota && r.0.inProgress &&
              r.1.value.num == s.enemyNums && r.1.value.entrance == JavaRem(s.enemyNums, 4) &&
              r.1.value.count == GetOrZero(s.counts, r.1.value.entrance) &&
              GetOrZero(r.0.counts, r.1.value.entrance) == r.1.value.count + 1 &&
              (r.1.value.boss <==> JavaRem(s.wave, 5) == 0)
  {
    if s.inProgress && s.spawned < s.quota then
      var e := JavaRem(s.enemyNums, 4);
      var c := GetOrZero(s.counts, e);
      (s.(counts := s.counts[e := c + 1], enemyNums := s.enemyNums + 1, spawned := s.spawned + 1),
       Some(SpawnOrder(e, c, s.enemyNums, JavaRem(s.wave, 5) == 0)))
    else (s, None)
  }

  /** Spawning keeps the bookkeeping consistent: the per-entrance counts
      still add up to the enemies spawned, and the quota is never exceeded. */
  lemma SpawnStepKeepsScheduleOk(s: Schedule)
    requires ScheduleOk(s)
    ensures ScheduleOk(SpawnStep(s).0)
  {
    if s.inProgress && s.spawned < s.quota {
      var e := JavaRem(s.enemyNums, 4);
      var m := s.counts[e := GetOrZero(s.counts, e) + 1];
      assert 0 <= e < 4;
      assert Total(m) == Total(s.counts) + 1 by {
        assert forall k :: 0 <= k < 4 && k != e ==> GetOrZero(m, k) == GetOrZero(s.counts, k);
      }
    }
  }

  /** Entrances take turns: enemy n comes out of entrance n % 4. */
  lemma SpawnEntrancesRotate(s: Schedule)
    requires ScheduleOk(s) && s.inProgress && s.spawned + 1 < s.quota
    ensures var a := SpawnStep(s);
            var b := SpawnStep(a.0);
            b.1.Some? && b.1.value.entrance == (a.1.value.entrance + 1) % 4
  {
  }

  /** The box of a spawned enemy: the entrance's spawn box pushed along the
      entrance by SPAWN_SPACING per enemy it spawned earlier this wave. */
  function SpawnBox(base: Rect, entrance: int, count: int): (r: Rect)
    ensures r.width == base.width && r.height == base.height
    ensures entrance == 0 || entrance == 1 ==> r.y == base.y
    ensures entrance == 2 || entrance == 3 ==> r.x == base.x
  {
    if entrance == 0 || entrance == 1 then base.Translate(count * SPAWN_SPACING, 0)
    else if entrance == 2 || entrance == 3 then base.Translate(0, count * SPAWN_SPACING)
    else base
  }

  /** Enemies of one wave that leave the same entrance do not overlap when
      they appear: the spacing exceeds the enemy size. */
  lemma SameEntranceSpawnsApart(base: Rect, entrance: int, c1: int, c2: int)
    requires 0 <= entrance < 4 && c1 != c2
    requires base.width == ENEMY_SIZE && base.height == ENEMY_SIZE
    ensures !Intersects(SpawnBox(base, entrance, c1), SpawnBox(base, entrance, c2))
  {
    var a, b := SpawnBox(base, entrance, c1), SpawnBox(base, entrance, c2);
    if c1 < c2 {
      assert c2 * SPAWN_SPACING - c1 * SPAWN_SPACING == (c2 - c1) * SPAWN_SPACING;
    } else {
      assert c1 * SPAWN_SPACING - c2 * SPAWN_SPACING == (c1 - c2) * SPAWN_SPACING;
    }
  }

  /** What the end of a wave sets off besides the new schedule. */
  datatype WaveEndEffects = WaveEndEffects(stopTimer: bool, rebuildLevel: Option<int>, spawnPowerUps: bool)

  /** The wave-end step of a tick: once every enemy of the wave has been
      spawned and none is left, the next wave is set up.  After a boss wave
      play stops until the player starts the next one; a new map is built at
      the start of each block of five waves and power-ups appear on every
      third wave. */
  function WaveEnd(s: Schedule, enemiesLeft: int): (r: (Schedule, Option<WaveEndEffects>))
    ensures r.1.Some? <==> s.spawned == s.quota && enemiesLeft == 0
    ensures r.1.None? ==> r.0 == s
    ensures r.1.Some? ==>
              r.0.wave == s.wave + 1 && r.0.quota == Quota(s.wave + 1) && r.0.spawned == 0 &&
              r.0.counts == map[] && r.0.enemyNums == s.enemyNums &&
              (r.1.value.stopTimer <==> JavaRem(s.wave, 5) == 0) &&
              r.0.inProgress == (s.inProgress && !r.1.value.stopTimer) &&
              (r.1.value.rebuildLevel.Some? <==> JavaRem(r.0.wave, 5) == 1) &&
              (r.1.value.spawnPowerUps <==> r.0.wave >= 3 && JavaRem(r.0.wave, 3) == 0)
  {
    if s.spawned == s.quota && enemiesLeft == 0 then
      var boss := JavaRem(s.wave, 5) == 0;
      var w := s.wave + 1;
      (s.(wave := w, quota := Quota(w), spawned := 0, counts := map[],
          inProgress := s.inProgress && !boss),
       Some(WaveEndEffects(boss, if JavaRem(w, 5) == 1 then Some(w / 5 + 1) else None,
                           w >= 3 && JavaRem(w, 3) == 0)))
    else (s, None)
  }

  lemma WaveEndKeepsScheduleOk(s: Schedule, enemiesLeft: int)
    requires ScheduleOk(s)
    ensures ScheduleOk(WaveEnd(s, enemiesLeft).0)
  {
  }

  /** The map of wave 5k + 1 is built for level k + 1: a boss wave is always
      the last wave played on a map. */
  lemma RebuildFollowsBossWave(s: Schedule, enemiesLeft: int)
    requires ScheduleOk(s)
    requires WaveEnd(s, enemiesLeft).1.Some?
    ensures var r := WaveEnd(s, enemiesLeft);
            r.1.value.rebuildLevel.Some? <==> r.1.value.stopTimer
    ensures var r := WaveEnd(s, enemiesLeft);
            r.1.value.rebuildLevel.Some? ==> 5 * (r.1.value.rebuildLevel.value - 1) + 1 == r.0.wave
  {
  }

  // ------------------------------------------------------- contact damage

  /** One tick of an enemy's damage cooldown: the flag says the player is
      hit.  In contact at cooldown 0 the player is hit and the cooldown is
      reset to DAMAGE_RATE; in contact otherwise it counts down; out of
      contact it is cleared. */
  function CooldownStep(c: int, touching: bool): (r: (bool, int))
    ensures r.0 <==> touching && c == 0
    ensures r.0 ==> r.1 == DAMAGE_RATE
    ensures touching && c != 0 ==> r.1 == c - 1
    ensures !touching ==> r.1 == 0
    ensures 0 <= c <= DAMAGE_RATE ==> 0 <= r.1 <= DAMAGE_RATE
  {
    if touching then
      if c == 0 then (true, DAMAGE_RATE) else (false, c - 1)
    else (false, 0)
  }

  predicate CooldownsInRange(m: map<int, int>)
  {
    forall k :: k in m ==> 0 <= m[k] <= DAMAGE_RATE
  }

  /** dealDamage over the enemies, given as (number, in contact) pairs in
      list order: the cooldown table afterwards and how many hits the
      player takes. */
  function DamageFold(m: map<int, int>, es: seq<(int, bool)>): (r: (map<int, int>, nat))
    ensures r.1 <= |es|
  {
    if |es| == 0 then (m, 0)
    else
      var prev := DamageFold(m, es[..|es| - 1]);
      var e := es[|es| - 1];
      var st := CooldownStep(GetOrZero(prev.0, e.0), e.1);
      (prev.0[e.0 := st.1], prev.1 + if st.0 then 1 else 0)
  }

  /** dealDamage keeps every cooldown in 0..DAMAGE_RATE, keeps the enemies
      it knew and records one for every enemy it sees. */
  lemma {:induction false} DamageFoldInRange(m: map<int, int>, es: seq<(int, bool)>)
    ensures var r := DamageFold(m, es);
            (CooldownsInRange(m) ==> CooldownsInRange(r.0)) &&
            (forall k :: k in m ==> k in r.0) &&
            (forall i :: 0 <= i < |es| ==> es[i].0 in r.0)
  {
    if |es| > 0 {
      DamageFoldInRange(m, es[..|es| - 1]);
      assert forall i :: 0 <= i < |es| - 1 ==> es[i] == es[..|es| - 1][i];
    }
  }

  /** No contact, no damage. */
  lemma {:induction false} DamageFoldNoContact(m: map<int, int>, es: seq<(int, bool)>)
    requires forall i :: 0 <= i < |es| ==> !es[i].1
    ensures DamageFold(m, es).1 == 0
  {
    if |es| > 0 {
      DamageFoldNoContact(m, es[..|es| - 1]);
    }
  }

  /** One more enemy for dealDamage. */
  lemma DamageFoldSnoc(m: map<int, int>, es: seq<(int, bool)>, num: int, touching: bool)
    ensures var prev := DamageFold(m, es);
            var st := CooldownStep(GetOrZero(prev.0, num), touching);
            DamageFold(m, es + [(num, touching)]) == (prev.0[num := st.1], prev.1 + if st.0 then 1 else 0)
  {
    assert (es + [(num, touching)])[..|es|] == es;
  }

  /** Health and shield after `hits` hits of one point each. */
  function AfterHits(health: int, shield: int, hits: nat): (r: (int, int))
    ensures shield >= 0 ==> r.0 + r.1 == health + shield - hits && r.1 >= 0
    ensures r.0 <= health && r.1 <= shield
    decreases hits
  {
    if hits == 0 then (health, shield)
    else
      var h := AfterHits(health, shield, hits - 1);
      AbsorbDamage(h.0, h.1, 1)
  }

  /** One more hit. */
  lemma AfterHitsSucc(health: int, shield: int, hits: nat)
    ensures var h := AfterHits(health, shield, hits);
            AfterHits(health, shield, hits + 1) == AbsorbDamage(h.0, h.1, 1)
  {
  }

  /** After hits one-point hits the shield is spent first, then health. */
  lemma {:induction false} AfterHitsClosed(health: int, shield: int, hits: nat)
    requires shield >= 0
    ensures AfterHits(health, shield, hits) ==
            if hits <= shield then (health, shield - hits) else (health - (hits - shield), 0)
  {
    if hits > 0 {
      AfterHitsClosed(health, shield, hits - 1);
    }
  }

  /** isAlive after a run of one-point hits: a character with positive
      health and a shield survives exactly health + shield - 1 of them. */
  lemma HitsToKill(health: int, shield: int, hits: nat)
    requires health > 0 && shield >= 0
    ensures AfterHits(health, shield, hits).0 > 0 <==> hits < health + shield
  {
    AfterHitsClosed(health, shield, hits);
  }

  /** The cooldown of an enemy that has touched the player for t ticks in a row, from 0. */
  function TouchCooldown(t: nat): int
  {
    if t == 0 then 0 else CooldownStep(TouchCooldown(t - 1), true).1
  }

  /** Over the first cycle the cooldown counts down from DAMAGE_RATE to 0. */
  lemma {:induction false} TouchCooldownFirstCycle(p: nat)
    requires 1 <= p <= DAMAGE_RATE + 1
    ensures TouchCooldown(p) == DAMAGE_RATE + 1 - p
  {
    if p > 1 {
      TouchCooldownFirstCycle(p - 1);
    }
  }

  /** The cooldown of a continuous contact repeats every DAMAGE_RATE + 1 ticks. */
  lemma {:induction false} TouchCooldownPeriodic(t: nat)
    ensures TouchCooldown(t + DAMAGE_RATE + 1) == TouchCooldown(t)
  {
    if t == 0 {
      TouchCooldownFirstCycle(DAMAGE_RATE + 1);
    } else {
      TouchCooldownPeriodic(t - 1);
    }
  }

  /** An enemy that stays in contact hits the player on its first tick of
      contact and then once every DAMAGE_RATE + 1 ticks. */
  lemma {:induction false} ContactHitsEveryThirtyOneTicks(t: nat)
    ensures CooldownStep(TouchCooldown(t), true).0 <==> t % (DAMAGE_RATE + 1) == 0
  {
    if t == 0 {
    } else if t <= DAMAGE_RATE {
      TouchCooldownFirstCycle(t);
    } else {
      var u := t - (DAMAGE_RATE + 1);
      TouchCooldownPeriodic(u);
      ContactHitsEveryThirtyOneTicks(u);
      ModPeriod(u);
    }
  }

  /** A full cycle later the phase is the same. */
  lemma ModPeriod(u: nat)
    ensures (u + (DAMAGE_RATE + 1)) % (DAMAGE_RATE + 1) == u % (DAMAGE_RATE + 1)
  {
  }

  // ------------------------------------------------------------ the score

  /** trackScore: the hundreds, tens and ones digits of the score. */
  function Digits(score: int): (d: (int, int, int))
    ensures 0 <= score ==> 0 <= d.1 <= 9 && 0 <= d.2 <= 9 && 0 <= d.0
  {
    (JavaQuot(score, 100), JavaQuot(JavaRem(score, 100), 10), JavaRem(score, 10))
  }

  /** Below 1000 the three digits shown are the score. */
  lemma DigitsRecombine(score: int)
    requires 0 <= score < 1000
    ensures var d := Digits(score);
            0 <= d.0 <= 9 && 100 * d.0 + 10 * d.1 + d.2 == score
  {
  }

  /** From 1000 on the hundreds value leaves the digit range, so the
      read-out has no sprite for it. */
  lemma DigitsOverflowAtThousand(score: int)
    requires 1000 <= score
    ensures Digits(score).0 >= 10
  {
  }

  // --------------------------------------------------------- key handling

  /** The parts of Main's state that key events change directly. */
  datatype Controls = Controls(inProgress: bool, paused: bool, resume: bool, timerRunning: bool,
                               exited: bool, keys: set<int>)

  /** A key press: the new controls and what else it sets off. */
  datatype KeyOutcome = KeyOutcome(controls: Controls, startWave: bool, fire: bool,
                                   usePowerUp: bool, startMoving: bool)

  /** keyPressed.  J starts a wave when none runs; I pauses; while paused,
      W and S choose between resuming and quitting and U confirms; otherwise
      U fires once per press, O uses a power-up and W, A, S, D are held. */
  function KeyPress(c: Controls, code: int): (r: KeyOutcome)
    ensures r.startWave <==> code == KEY_J && !c.inProgress && !c.paused
    ensures r.fire <==> code == KEY_U && !c.paused && KEY_U !in c.keys
    ensures r.usePowerUp <==> code == KEY_O && !c.paused
    ensures r.startMoving <==> code in {KEY_W, KEY_A, KEY_S, KEY_D} && !c.paused
    ensures r.controls.keys == c.keys || (!c.paused && r.controls.keys == c.keys + {code})
    ensures c.paused ==> r.controls.keys == c.keys && r.controls.inProgress == c.inProgress
    ensures r.controls.exited <==> c.exited || (code == KEY_U && c.paused && !c.resume)
  {
    var none := KeyOutcome(c, false, false, false, false);
    if code == KEY_J && !c.inProgress && !c.paused then
      none.(controls := c.(inProgress := true, timerRunning := true), startWave := true)
    else if code == KEY_I && !c.paused then
      none.(controls := c.(timerRunning := false, paused := true))
    else if code == KEY_U && c.paused && c.resume then
      none.(controls := c.(paused := false, timerRunning := c.timerRunning || c.inProgress))
    else if code == KEY_U && c.paused then
      none.(controls := c.(exited := true))
    else if c.paused then
      if code == KEY_W && !c.resume then none.(controls := c.(resume := true))
      else if code == KEY_S && c.resume then none.(controls := c.(resume := false))
      else none
    else
      var moveKey := code in {KEY_W, KEY_A, KEY_S, KEY_D};
      var keys := if code == KEY_U || moveKey then c.keys + {code} else c.keys;
      KeyOutcome(c.(keys := keys), false, code == KEY_U && KEY_U !in c.keys, code == KEY_O, moveKey)
  }

  /** keyReleased */
  function KeyRelease(c: Controls, code: int): (r: Controls)
    ensures r.keys == c.keys - {code}
  {
    c.(keys := c.keys - {code})
  }

  /** Holding U fires once: the press that fires records U as held, so a
      second press before the release does not fire, and the release
      re-arms it. */
  lemma FireOncePerPress(c: Controls)
    requires !c.paused && KEY_U !in c.keys
    ensures var first := KeyPress(c, KEY_U);
            first.fire && !KeyPress(first.controls, KEY_U).fire &&
            KeyPress(KeyRelease(first.controls, KEY_U), KEY_U).fire
  {
  }

  /** Pausing with I and confirming with U gives back the running game,
      with the timer running exactly when a wave is in progress. */
  lemma PauseThenResume(c: Controls)
    requires !c.paused && c.resume
    ensures KeyPress(KeyPress(c, KEY_I).controls, KEY_U).controls == c.(timerRunning := c.inProgress)
  {
  }

  /** While paused no key reaches the game: nothing fires, moves, is used or starts. */
  lemma PausedIgnoresPlay(c: Controls, code: int)
    requires c.paused
    ensures var r := KeyPress(c, code);
            !r.fire && !r.usePowerUp && !r.startMoving && !r.startWave &&
            r.controls.keys == c.keys && r.controls.inProgress == c.inProgress
  {
  }

  // ------------------------------------------------------- smooth movement

  /** handleSmoothMovement: the moves a tick makes for the held keys.  A
      held vertical and horizontal pair moves diagonally, vertical first;
      otherwise each held key moves in the order up, down, left, right. */
  function SmoothMoves(keys: set<int>): (ds: seq<int>)
    ensures |ds| <= 2
    ensures forall i :: 0 <= i < |ds| ==> LEFT <= ds[i] <= DOWN
    ensures UP in ds ==> KEY_W in keys
    ensures DOWN in ds ==> KEY_S in keys
    ensures LEFT in ds ==> KEY_A in keys
    ensures RIGHT in ds ==> KEY_D in keys
    ensures forall i, j :: 0 <= i < j < |ds| ==> ds[i] != ds[j] && !(ds[i] in {LEFT, RIGHT} && ds[j] in {UP, DOWN})
    ensures KEY_W !in keys && KEY_S !in keys && KEY_A !in keys && KEY_D !in keys ==> ds == []
    ensures KEY_W in keys && KEY_A in keys ==> ds == [UP, LEFT]
    ensures KEY_W in keys && KEY_A !in keys && KEY_D in keys ==> ds == [UP, RIGHT]
    ensures KEY_W !in keys && KEY_S in keys && KEY_A in keys ==> ds == [DOWN, LEFT]
    ensures KEY_W !in keys && KEY_S in keys && KEY_A !in keys && KEY_D in keys ==> ds == [DOWN, RIGHT]
    ensures !((KEY_W in keys || KEY_S in keys) && (KEY_A in keys || KEY_D in keys)) ==>
              (UP in ds <==> KEY_W in keys) && (DOWN in ds <==> KEY_S in keys) &&
              (LEFT in ds <==> KEY_A in keys) && (RIGHT in ds <==> KEY_D in keys) &&
              forall i, j :: 0 <= i < j < |ds| ==> ds[i] < ds[j]
  {
    var up, down, left, right := KEY_W in keys, KEY_S in keys, KEY_A in keys, KEY_D in keys;
    if up && left then [UP, LEFT]
    else if up && right then [UP, RIGHT]
    else if down && left then [DOWN, LEFT]
    else if down && right then [DOWN, RIGHT]
    else (if up then [UP] else []) + (if down then [DOWN] else []) +
         (if left then [LEFT] else []) + (if right then [RIGHT] else [])
  }

  /** The box after the moves in order. */
  function Walked(b: Rect, ds: seq<int>, speed: int, panW: int, panH: int): (r: Rect)
    ensures r.width == b.width && r.height == b.height
    decreases |ds|
  {
    if |ds| == 0 then b else Walked(Stepped(b, ds[0], speed, panW, panH), ds[1..], speed, panW, panH)
  }

  /** Walking never leaves the panel. */
  lemma {:induction false} WalkedStaysInPanel(b: Rect, ds: seq<int>, speed: int, panW: int, panH: int)
    requires InPanel(b, panW, panH) && speed >= 0
    ensures InPanel(Walked(b, ds, speed, panW, panH), panW, panH)
    decreases |ds|
  {
    if |ds| > 0 {
      SteppedStaysInPanel(b, ds[0], speed, panW, panH);
      WalkedStaysInPanel(Stepped(b, ds[0], speed, panW, panH), ds[1..], speed, panW, panH);
    }
  }

  lemma {:induction false} WalkedSnoc(b: Rect, ds: seq<int>, d: int, speed: int, panW: int, panH: int)
    ensures Walked(b, ds + [d], speed, panW, panH) == Stepped(Walked(b, ds, speed, panW, panH), d, speed, panW, panH)
    decreases |ds|
  {
    if |ds| > 0 {
      assert (ds + [d])[1..] == ds[1..] + [d];
      WalkedSnoc(Stepped(b, ds[0], speed, panW, panH), ds[1..], d, speed, panW, panH);
    }
  }

  /** The facing after the moves: the last move's direction. */
  function FacingAfter(facing: int, ds: seq<int>): int
  {
    if |ds| == 0 then facing else ds[|ds| - 1]
  }

  // ----------------------------------------------------------- bullets

  /** What one pass of the bullet loop does to a bullet: it is removed,
      naming the enemy it hit (or -1), or survives with its next state. */
  datatype Fate = Removed(hit: int) | Survives(next: BulletState)

  /** The obstacle or the wall loop of move(): on the first box the bullet
      touches, a plain bullet is removed (None) and a bouncing one bounces;
      a bullet touching nothing goes on unchanged. */
  function HitStage(b: BulletState, rs: seq<Rect>): (r: Option<BulletState>)
    ensures r.None? <==> !b.bouncing && AnyIntersects(rs, b.box)
    ensures !AnyIntersects(rs, b.box) ==> r == Some(b)
    ensures r.Some? ==> r.value.box == b.box && r.value.bouncing == b.bouncing &&
                        r.value.panW == b.panW && r.value.panH == b.panH &&
                        b.bounces - 1 <= r.value.bounces <= b.bounces
  {
    var k := FirstIntersecting(rs, b.box);
    if k < 0 then Some(b)
    else if !b.bouncing then None
    else Some(b.Bounced(rs[k]).0)
  }

  /** The collision order of move(): the first obstacle hit, then the first
      wall hit (a plain bullet is removed, a bouncing one reflects), then the
      first enemy hit (removed, the enemy loses a point), then the bounds;
      a survivor advances one step. */
  function BulletFate(b: BulletState, obstacles: seq<Rect>, walls: seq<Rect>, enemyBoxes: seq<Rect>): (f: Fate)
    ensures f.Removed? ==> -1 <= f.hit < |enemyBoxes|
    ensures !b.bouncing && AnyIntersects(obstacles, b.box) ==> f == Removed(-1)
    ensures f.Survives? ==> f.next.bouncing == b.bouncing && f.next.panW == b.panW && f.next.panH == b.panH &&
                            b.bounces - 2 <= f.next.bounces <= b.bounces
  {
    match HitStage(b, obstacles)
    case None => Removed(-1)
    case Some(b1) =>
      match HitStage(b1, walls)
      case None => Removed(-1)
      case Some(b2) =>
        var ke := FirstIntersecting(enemyBoxes, b2.box);
        if ke >= 0 then Removed(ke)
        else if b2.Disappears() then Removed(-1)
        else Survives(b2.Advanced())
  }

  /** What decides a bullet's fate: only an enemy it touches can be hit,
      and the first such; a plain bullet touching an obstacle or a wall is
      removed; a removal that hits no enemy comes from such a touch or from
      leaving the panel; a survivor touches no enemy, stays in the panel and
      has used at most two bounces. */
  lemma BulletFateSound(b: BulletState, obstacles: seq<Rect>, walls: seq<Rect>, enemyBoxes: seq<Rect>)
    ensures var f := BulletFate(b, obstacles, walls, enemyBoxes);
      (f.Removed? ==> -1 <= f.hit < |enemyBoxes|) &&
      (f.Removed? && f.hit >= 0 ==>
         Intersects(enemyBoxes[f.hit], b.box) &&
         forall j :: 0 <= j < f.hit ==> !Intersects(enemyBoxes[j], b.box)) &&
      (!b.bouncing && (AnyIntersects(obstacles, b.box) || AnyIntersects(walls, b.box)) ==> f == Removed(-1)) &&
      (f == Removed(-1) ==>
         (!b.bouncing && (AnyIntersects(obstacles, b.box) || AnyIntersects(walls, b.box))) || b.Disappears()) &&
      (f.Survives? ==>
         !AnyIntersects(enemyBoxes, b.box) && !b.Disappears() &&
         f.next.box == b.box.Translate(f.next.vx, f.next.vy) &&
         f.next.bouncing == b.bouncing && f.next.panW == b.panW && f.next.panH == b.panH &&
         b.bounces - 2 <= f.next.bounces <= b.bounces) &&
      (f.Survives? && !b.bouncing ==> f.next == b.Advanced())
  {
  }

  /** The fates of a whole list of bullets against the same surroundings. */
  function Fates(bs: seq<BulletState>, obstacles: seq<Rect>, walls: seq<Rect>, enemyBoxes: seq<Rect>): (fs: seq<Fate>)
    ensures |fs| == |bs|
  {
    seq(|bs|, k requires 0 <= k < |bs| => BulletFate(bs[k], obstacles, walls, enemyBoxes))
  }

  function Surviving(fs: seq<Fate>): (keep: seq<bool>)
    ensures |keep| == |fs|
    ensures forall i :: 0 <= i < |fs| ==> (keep[i] <==> fs[i].Survives?)
  {
    seq(|fs|, i requires 0 <= i < |fs| => fs[i].Survives?)
  }

  /** How many bullets hit enemy j. */
  function Hits(fs: seq<Fate>, j: int): (n: nat)
    ensures n <= |fs|
  {
    if |fs| == 0 then 0
    else Hits(fs[..|fs| - 1], j) + (if fs[|fs| - 1] == Removed(j) then 1 else 0)
  }

  /** Hits over a prefix one fate longer. */
  lemma HitsSnoc(fs: seq<Fate>, p: int, j: int)
    requires 0 <= p < |fs|
    ensures Hits(fs[..p + 1], j) == Hits(fs[..p], j) + (if fs[p] == Removed(j) then 1 else 0)
  {
    assert fs[..p + 1][..p] == fs[..p];
  }

  /** An enemy hit at least once is the target of some fate. */
  lemma {:induction false} HitsWitness(fs: seq<Fate>, j: int)
    requires Hits(fs, j) > 0
    ensures exists k :: 0 <= k < |fs| && fs[k] == Removed(j)
  {
    var n := |fs| - 1;
    if fs[n] != Removed(j) {
      HitsWitness(fs[..n], j);
      var k :| 0 <= k < n && fs[..n][k] == Removed(j);
      assert fs[k] == Removed(j);
    }
  }

  /** Only an enemy that some bullet touches is hit. */
  lemma HitsNeedContact(bs: seq<BulletState>, obstacles: seq<Rect>, walls: seq<Rect>,
                        enemyBoxes: seq<Rect>, j: int)
    requires 0 <= j && Hits(Fates(bs, obstacles, walls, enemyBoxes), j) > 0
    ensures j < |enemyBoxes|
    ensures exists i :: 0 <= i < |bs| && Intersects(enemyBoxes[j], bs[i].box)
  {
    var fs := Fates(bs, obstacles, walls, enemyBoxes);
    HitsWitness(fs, j);
    var k :| 0 <= k < |fs| && fs[k] == Removed(j);
    BulletFateSound(bs[k], obstacles, walls, enemyBoxes);
  }

  // ----------------------------------------------------------- power-ups

  /** A power-up lying on the floor: PowerUpItem. */
  datatype PowerUpItem = PowerUpItem(box: Rect, powerUp: PowerUp)

  /** Items the player does not touch stay on the floor. */
  function Untouched(items: seq<PowerUpItem>, player: Rect): (keep: seq<bool>)
    ensures |keep| == |items|
    ensures forall i :: 0 <= i < |items| ==> (keep[i] <==> !Intersects(player, items[i].box))
  {
    seq(|items|, i requires 0 <= i < |items| => !Intersects(player, items[i].box))
  }

  /** The inventory entries checkPowerUpPickup adds: touched items from the
      last to the first, each queued inactive with its full duration. */
  function Collected(items: seq<PowerUpItem>, player: Rect): (r: seq<InventoryPowerUp>)
    ensures forall k :: 0 <= k < |r| ==> !r[k].active && r[k].remaining == r[k].powerUp.duration
  {
    if |items| == 0 then []
    else Collected(items[1..], player) +
         (if Intersects(player, items[0].box)
          then [InventoryPowerUp(items[0].powerUp, items[0].powerUp.duration, false)] else [])
  }

  /** Collected on a suffix, one item at a time. */
  lemma CollectedAt(items: seq<PowerUpItem>, player: Rect, i: int)
    requires 0 <= i < |items|
    ensures Collected(items[i..], player) ==
            Collected(items[i + 1..], player) +
            (if Intersects(player, items[i].box)
             then [InventoryPowerUp(items[i].powerUp, items[i].powerUp.duration, false)] else [])
  {
    assert items[i..][1..] == items[i + 1..];
  }

  /** Where the pickup loop stands before it looks at position i: the items
      up to i still lie on the floor, those after it are filtered, and what
      they gave follows the inventory ps. */
  ghost predicate PickedUpFrom(floor: seq<PowerUpItem>, inv: seq<InventoryPowerUp>, items: seq<PowerUpItem>,
                               pb: Rect, ps: seq<InventoryPowerUp>, i: int)
    requires -1 <= i < |items|
  {
    floor == items[..i + 1] + Select(items[i + 1..], Untouched(items, pb)[i + 1..]) &&
    inv == ps + Collected(items[i + 1..], pb)
  }

  /** One turn of that loop: item i leaves the floor for the inventory
      exactly when the player touches it. */
  lemma PickUpStep(floor: seq<PowerUpItem>, inv: seq<InventoryPowerUp>, items: seq<PowerUpItem>,
                   pb: Rect, ps: seq<InventoryPowerUp>, i: int)
    requires 0 <= i < |items| && PickedUpFrom(floor, inv, items, pb, ps, i)
    ensures i < |floor| && floor[i] == items[i]
    ensures Intersects(pb, items[i].box) ==>
              PickedUpFrom(floor[..i] + floor[i + 1..],
                           inv + [InventoryPowerUp(items[i].powerUp, items[i].powerUp.duration, false)],
                           items, pb, ps, i - 1)
    ensures !Intersects(pb, items[i].box) ==> PickedUpFrom(floor, inv, items, pb, ps, i - 1)
  {
    RemoveStep(floor, items, Untouched(items, pb), i);
    CollectedAt(items, pb, i);
    if Intersects(pb, items[i].box) {
      AppendAssoc(ps, Collected(items[i + 1..], pb),
                  [InventoryPowerUp(items[i].powerUp, items[i].powerUp.duration, false)]);
    }
  }

  /** Collected over the whole list and over none of it. */
  lemma CollectedEnds(items: seq<PowerUpItem>, player: Rect)
    ensures Collected(items[0..], player) == Collected(items, player)
    ensures Collected(items[|items|..], player) == []
  {
    assert items[0..] == items && items[|items|..] == [];
  }

  /** Every item is either collected or left on the floor, never both. */
  lemma {:induction false} PickupConserves(items: seq<PowerUpItem>, player: Rect)
    ensures |Collected(items, player)| + |Select(items, Untouched(items, player))| == |items|
  {
    if |items| > 0 {
      assert Untouched(items, player)[1..] == Untouched(items[1..], player);
      PickupConserves(items[1..], player);
    }
  }

  /** Nothing left on the floor touches the player. */
  lemma {:induction false} PickupLeavesNoneTouching(items: seq<PowerUpItem>, player: Rect)
    ensures forall it :: it in Select(items, Untouched(items, player)) ==> !Intersects(player, it.box)
  {
    if |items| > 0 {
      assert Untouched(items, player)[1..] == Untouched(items[1..], player);
      PickupLeavesNoneTouching(items[1..], player);
    }
  }

  /** A size x size box centred in tile t, with Java's truncating division. */
  function CentredIn(t: Rect, size: int): (r: Rect)
    ensures r.width == size && r.height == size
    ensures 0 <= size <= t.width ==>
              t.x <= r.x && r.Right() <= t.Right() && (r.x - t.x) - (t.Right() - r.Right()) in {-1, 0}
    ensures 0 <= size <= t.height ==>
              t.y <= r.y && r.Bottom() <= t.Bottom() && (r.y - t.y) - (t.Bottom() - r.Bottom()) in {-1, 0}
  {
    Rect(t.x + JavaHalf(t.width - size), t.y + JavaHalf(t.height - size), size, size)
  }

  /** spawnPowerUps on the two chosen tiles: a shotgun and a speed boost of
      ITEM_DURATION ticks, each half a tile wide, centred in its tile. */
  function SpawnedItems(t1: Rect, t2: Rect, tileSize: int): (items: seq<PowerUpItem>)
    ensures |items| == 2
    ensures items[0].powerUp == PowerUp(Shotgun, ITEM_DURATION)
    ensures items[1].powerUp == PowerUp(SpeedBoost(ITEM_SPEED_BOOST), ITEM_DURATION)
    ensures items[0].box == CentredIn(t1, JavaHalf(tileSize))
    ensures items[1].box == CentredIn(t2, JavaHalf(tileSize))
  {
    var size := JavaHalf(tileSize);
    [PowerUpItem(CentredIn(t1, size), PowerUp(Shotgun, ITEM_DURATION)),
     PowerUpItem(CentredIn(t2, size), PowerUp(SpeedBoost(ITEM_SPEED_BOOST), ITEM_DURATION))]
  }

  /** The items spawnPowerUps lays out: none without a walkable tile,
      otherwise the two items on the tiles the draws pick (a draw stands for
      Random.nextInt(|tiles|) and is taken modulo the number of tiles). */
  function PowerUpDrop(tiles: seq<Rect>, tileSize: int, pick1: nat, pick2: nat): (items: seq<PowerUpItem>)
    ensures |tiles| == 0 ==> items == []
    ensures |tiles| > 0 ==>
              |items| == 2 &&
              items[0].box == CentredIn(tiles[pick1 % |tiles|], JavaHalf(tileSize)) &&
              items[1].box == CentredIn(tiles[pick2 % |tiles|], JavaHalf(tileSize))
  {
    if |tiles| == 0 then []
    else SpawnedItems(tiles[pick1 % |tiles|], tiles[pick2 % |tiles|], tileSize)
  }
}
