/**
 * The difficulty-driven spawner. Each unpaused frame it advances the session
 * clock and the spawn timer, hands the speed multiplier to the score, culls
 * destroyed items from its live list, and, when fewer items are live than the
 * concurrency cap and the timer has reached the spawn interval, attempts one
 * spawn and resets the timer, even when the attempt is abandoned.
 */
module Spawner {
  import opened Types
  import opened Trash
  import opened Score

  /** The per-category spawn weights as configured (possibly negative). */
  datatype Weights = Weights(glass: real, plastic: real, metal: real, paper: real)

  /** The sprite list of each category; an entry may be a missing (null) sprite. */
  datatype SpritePools = SpritePools(
    glass: seq<Option<Sprite>>, plastic: seq<Option<Sprite>>,
    metal: seq<Option<Sprite>>, paper: seq<Option<Sprite>>)

  /** The item prefab: its rect size, scale and size settings. */
  datatype Prefab = Prefab(width: real, height: real, scale: real, sizing: Sizing)

  datatype SpawnConfig = SpawnConfig(
    baseSpawnInterval: real, minSpawnInterval: real, spawnAcceleration: real,
    baseSpeed: real, speedGrowthPerSecond: real,
    speedMultiplierMin: real, speedMultiplierMax: real,
    rotationMin: real, rotationMax: real, rotationDeadZone: real,
    initialMaxConcurrent: int, secondsPerConcurrentIncrease: real, hardCapMaxConcurrent: int,
    weights: Weights, pools: SpritePools, horizontalPadding: real,
    layer: Layer, prefab: Prefab)

  /** The random draws one spawn attempt may consume. */
  datatype SpawnDraws = SpawnDraws(
    typeValue: real,   // Random.value for the weighted roll, in [0, 1]
    typeIndex: real,   // Random.Range(0, 4) for the uniform fallback, in [0, 1)
    spriteIndex: real, // Random.Range(0, count) for the sprite, in [0, 1)
    speedMultiplier: real, rotation: real, spawnX: real, shrink: real) // float ranges, in [0, 1]

  predicate ValidDraws(d: SpawnDraws)
  {
    IsFraction(d.typeValue) && IsIndexFraction(d.typeIndex) && IsIndexFraction(d.spriteIndex) &&
    IsFraction(d.speedMultiplier) && IsFraction(d.rotation) && IsFraction(d.spawnX) && IsFraction(d.shrink)
  }

  // ---------------------------------------------------------------------------
  // Difficulty curves: pure functions of the elapsed session time.

  /** The base fall speed now: grows linearly, never below 10 px/s. */
  function BaseSpeedNow(cfg: SpawnConfig, elapsed: real): (v: real)
    ensures v >= 10.0
    ensures v >= cfg.baseSpeed + cfg.speedGrowthPerSecond * elapsed
  {
    Max(10.0, cfg.baseSpeed + cfg.speedGrowthPerSecond * elapsed)
  }

  /** The multiplier handed to the score: current over base speed, clamped to [1, 10]. */
  function SpeedMultiplier(cfg: SpawnConfig, elapsed: real): (m: real)
    ensures 1.0 <= m <= 10.0
  {
    Clamp(BaseSpeedNow(cfg, elapsed) / Max(1.0, cfg.baseSpeed), 1.0, 10.0)
  }

  function SpawnInterval(cfg: SpawnConfig, elapsed: real): (i: real)
    ensures i >= cfg.minSpawnInterval
  {
    Max(cfg.minSpawnInterval, cfg.baseSpawnInterval - cfg.spawnAcceleration * elapsed)
  }

  /** The cap the curve asks for now; the applied cap only ever rises to it. */
  function CapCandidate(cfg: SpawnConfig, elapsed: real): (c: int)
    ensures c <= cfg.hardCapMaxConcurrent
  {
    MinInt(cfg.hardCapMaxConcurrent,
           cfg.initialMaxConcurrent + (elapsed / Max(1.0, cfg.secondsPerConcurrentIncrease)).Floor)
  }

  lemma IntervalNonIncreasing(cfg: SpawnConfig, t1: real, t2: real)
    requires cfg.spawnAcceleration >= 0.0 && t1 <= t2
    ensures SpawnInterval(cfg, t2) <= SpawnInterval(cfg, t1)
  {
    assert cfg.spawnAcceleration * t1 <= cfg.spawnAcceleration * t2 by {
      assert cfg.spawnAcceleration * (t2 - t1) >= 0.0;
    }
  }

  lemma FloorMonotone(a: real, b: real)
    requires a <= b
    ensures a.Floor <= b.Floor
  {
    assert (a.Floor as real) <= a < (a.Floor + 1) as real;
    assert (b.Floor as real) <= b < (b.Floor + 1) as real;
  }

  lemma CapCandidateMonotone(cfg: SpawnConfig, t1: real, t2: real)
    requires t1 <= t2
    ensures CapCandidate(cfg, t1) <= CapCandidate(cfg, t2)
  {
    var step := Max(1.0, cfg.secondsPerConcurrentIncrease);
    assert t1 / step <= t2 / step by {
      assert (t2 - t1) / step >= 0.0;
      assert t2 / step - t1 / step == (t2 - t1) / step;
    }
    FloorMonotone(t1 / step, t2 / step);
  }

  /** The fall speed of one item: base speed now times the drawn multiplier, floored at 5. */
  function ItemSpeed(cfg: SpawnConfig, elapsed: real, u: real): (v: real)
    requires IsFraction(u)
    ensures v >= 5.0
    ensures v >= BaseSpeedNow(cfg, elapsed) * 0.05
  {
    var mult := RangeDraw(cfg.speedMultiplierMin, cfg.speedMultiplierMax, u);
    Max(5.0, BaseSpeedNow(cfg, elapsed) * Max(0.05, mult))
  }

  /** A drawn rotation rate pushed out of the dead zone, keeping its sign (0 counts as positive). */
  function ApplyDeadZone(rotation: real, deadZone: real): (r: real)
    ensures Abs(r) >= deadZone
    ensures Abs(rotation) >= deadZone ==> r == rotation
    ensures Abs(rotation) < deadZone ==> Abs(r) == deadZone
    ensures rotation < 0.0 ==> r < 0.0
    ensures rotation > 0.0 ==> r > 0.0
    ensures rotation == 0.0 && deadZone > 0.0 ==> r == deadZone
  {
    if Abs(rotation) < deadZone then (if rotation < 0.0 then -1.0 else 1.0) * deadZone
    else rotation
  }

  function ItemRotation(cfg: SpawnConfig, u: real): (r: real)
    requires IsFraction(u)
    ensures Abs(r) >= cfg.rotationDeadZone
  {
    ApplyDeadZone(RangeDraw(cfg.rotationMin, cfg.rotationMax, u), cfg.rotationDeadZone)
  }

  /**
   * Where a new item appears: x across the layer inside the padding, y above
   * the top edge by half the item's rect height plus 40, so the item starts
   * fully off-screen.
   */
  function TopSpawnPosition(layer: Layer, itemHeight: real, padding: real, u: real): (p: Vec2)
    requires IsFraction(u)
    ensures p.y - itemHeight * 0.5 == layer.height * 0.5 + 40.0
    ensures var lo := -(layer.width * 0.5) + padding;
            var hi := layer.width * 0.5 - padding;
            (lo <= hi ==> lo <= p.x <= hi) && (hi <= lo ==> hi <= p.x <= lo)
  {
    var halfW := layer.width * 0.5;
    var halfH := layer.height * 0.5;
    Vec2(RangeDraw(-halfW + padding, halfW - padding, u), halfH + itemHeight * 0.5 + 40.0)
  }

  // ---------------------------------------------------------------------------
  // Category roll and sprite pick.

  function ClampedWeight(w: Weights, t: WasteType): (r: real)
    ensures r >= 0.0
  {
    match t
    case Glass => Max(0.0, w.glass)
    case Plastic => Max(0.0, w.plastic)
    case Metal => Max(0.0, w.metal)
    case Paper => Max(0.0, w.paper)
  }

  function WeightSum(w: Weights): real
  {
    ClampedWeight(w, Glass) + ClampedWeight(w, Plastic) + ClampedWeight(w, Metal) + ClampedWeight(w, Paper)
  }

  /** The total clamped weight of the categories declared before t. */
  function CumulativeBefore(w: Weights, t: WasteType): (c: real)
    ensures c >= 0.0
    ensures c + ClampedWeight(w, t) <= WeightSum(w)
  {
    match t
    case Glass => 0.0
    case Plastic => ClampedWeight(w, Glass)
    case Metal => ClampedWeight(w, Glass) + ClampedWeight(w, Plastic)
    case Paper => ClampedWeight(w, Glass) + ClampedWeight(w, Plastic) + ClampedWeight(w, Metal)
  }

  /**
   * The bucket walk: r is compared with the glass, plastic and metal weights
   * in turn, and what is left over is Paper.
   */
  function WalkBuckets(g: real, p: real, m: real, r: real): (t: WasteType)
    ensures t == Glass <==> r < g
    ensures t == Plastic ==> g <= r < g + p
    ensures t == Metal ==> g + p <= r < g + p + m
    ensures t == Paper ==> g + p + m <= r
  {
    if r < g then Glass
    else if r - g < p then Plastic
    else if r - g - p < m then Metal
    else Paper
  }

  /**
   * RollWasteType: with no positive weight, a uniform category; otherwise
   * r = value * sum walks the cumulative buckets in declaration order, and
   * anything past the third bucket is Paper.
   */
  function RollWasteType(w: Weights, value: real, uniformIndex: real): (t: WasteType)
    requires IsFraction(value) && IsIndexFraction(uniformIndex)
    ensures WeightSum(w) <= 0.0 ==> Index(t) == IndexDraw(4, uniformIndex)
    ensures WeightSum(w) > 0.0 ==> CumulativeBefore(w, t) <= value * WeightSum(w)
    ensures WeightSum(w) > 0.0 && t != Paper ==> value * WeightSum(w) < CumulativeBefore(w, t) + ClampedWeight(w, t)
  {
    var sum := WeightSum(w);
    if sum <= 0.0 then FromIndex(IndexDraw(4, uniformIndex))
    else
      var g, p, m := ClampedWeight(w, Glass), ClampedWeight(w, Plastic), ClampedWeight(w, Metal);
      var r := value * sum;
      ProductNonNegative(value, sum);
      var t := WalkBuckets(g, p, m, r);
      assert CumulativeBefore(w, t) <= r && (t != Paper ==> r < CumulativeBefore(w, t) + ClampedWeight(w, t)) by {
        if t == Plastic {
          assert CumulativeBefore(w, t) == g;
        } else if t == Metal {
          assert CumulativeBefore(w, t) == g + p;
        } else if t == Paper {
          assert CumulativeBefore(w, t) == g + p + m;
        }
      }
      t
  }

  /** With all weights at most zero, every category can come out of the fallback. */
  lemma RollFallbackUniform(w: Weights, value: real, t: WasteType)
    requires IsFraction(value) && WeightSum(w) <= 0.0
    ensures RollWasteType(w, value, Index(t) as real / 4.0) == t
  {
    var u := Index(t) as real / 4.0;
    assert u * 4.0 == Index(t) as real;
    assert IndexDraw(4, u) == Index(t);
    FromIndexOnto(t);
  }

  /**
   * For r = value * sum in [0, sum) the roll is the category whose cumulative
   * bucket holds r; so a category with zero clamped weight never comes out.
   */
  lemma RollSelectsBucket(w: Weights, value: real, uniformIndex: real)
    requires IsFraction(value) && IsIndexFraction(uniformIndex)
    requires WeightSum(w) > 0.0 && value < 1.0
    ensures var t := RollWasteType(w, value, uniformIndex);
            var r := value * WeightSum(w);
            CumulativeBefore(w, t) <= r < CumulativeBefore(w, t) + ClampedWeight(w, t) &&
            ClampedWeight(w, t) > 0.0
  {
    var r := value * WeightSum(w);
    assert 0.0 <= r < WeightSum(w) by {
      assert WeightSum(w) - r == (1.0 - value) * WeightSum(w);
    }
    var t := RollWasteType(w, value, uniformIndex);
    if t == Glass {
      assert CumulativeBefore(w, t) == 0.0;
    } else if t == Plastic {
      assert CumulativeBefore(w, t) == ClampedWeight(w, Glass);
    } else if t == Metal {
      assert CumulativeBefore(w, t) == ClampedWeight(w, Glass) + ClampedWeight(w, Plastic);
    } else {
      assert CumulativeBefore(w, t) + ClampedWeight(w, t) == WeightSum(w);
    }
  }

  /** Random.value may return exactly 1; then the roll is Paper whatever Paper's weight. */
  lemma RollAtOneIsPaper(w: Weights, uniformIndex: real)
    requires IsIndexFraction(uniformIndex) && WeightSum(w) > 0.0
    ensures RollWasteType(w, 1.0, uniformIndex) == Paper
  {
  }

  function PoolFor(pools: SpritePools, t: WasteType): seq<Option<Sprite>>
  {
    match t
    case Glass => pools.glass
    case Plastic => pools.plastic
    case Metal => pools.metal
    case Paper => pools.paper
  }

  /** A uniformly picked entry of the category's pool; None for an empty pool or a null entry. */
  function PickSpriteFor(pools: SpritePools, t: WasteType, u: real): (s: Option<Sprite>)
    requires IsIndexFraction(u)
    ensures |PoolFor(pools, t)| == 0 ==> s.None?
    ensures |PoolFor(pools, t)| > 0 ==> s == PoolFor(pools, t)[IndexDraw(|PoolFor(pools, t)|, u)]
    ensures s.Some? ==> s in PoolFor(pools, t)
  {
    var pool := PoolFor(pools, t);
    if |pool| == 0 then None else pool[IndexDraw(|pool|, u)]
  }

  /** A pool with no null entry yields a sprite exactly when it is non-empty. */
  lemma PickSpriteNoneIffEmpty(pools: SpritePools, t: WasteType, u: real)
    requires IsIndexFraction(u)
    requires forall i :: 0 <= i < |PoolFor(pools, t)| ==> PoolFor(pools, t)[i].Some?
    ensures PickSpriteFor(pools, t, u).None? <==> |PoolFor(pools, t)| == 0
  {
  }

  // ---------------------------------------------------------------------------
  // The spawner object.

  /** The live items that have not been destroyed, in their original order. */
  ghost function Surviving(s: seq<TrashItem>): (r: seq<TrashItem>)
    reads set x | x in s
    ensures |r| <= |s|
  {
    if s == [] then []
    else (if s[0].destroyed then [] else [s[0]]) + Surviving(s[1..])
  }

  /** Culling keeps exactly the entries that are not destroyed. */
  lemma {:induction false} SurvivingMembers(s: seq<TrashItem>, x: TrashItem)
    ensures x in Surviving(s) <==> x in s && !x.destroyed
  {
    if s != [] {
      SurvivingMembers(s[1..], x);
      assert s == [s[0]] + s[1..];
    }
  }

  /**
   * A live, initialised item built from the draws at the given clock: the
   * rolled category, the drawn speed and rotation, the top spawn position,
   * the layer, and the init scale of the picked sprite.
   */
  predicate SpawnedAsDrawn(it: TrashItem, cfg: SpawnConfig, elapsed: real, d: SpawnDraws)
    requires ValidDraws(d)
    reads it
  {
    var t := RollWasteType(cfg.weights, d.typeValue, d.typeIndex);
    var sprite := PickSpriteFor(cfg.pools, t, d.spriteIndex);
    sprite.Some? &&
    !it.destroyed && it.initialized &&
    it.wasteType == t &&
    it.speed == ItemSpeed(cfg, elapsed, d.speedMultiplier) &&
    it.rotationSpeedDegPerSec == ItemRotation(cfg, d.rotation) &&
    it.position == TopSpawnPosition(cfg.layer, cfg.prefab.height, cfg.horizontalPadding, d.spawnX) &&
    it.angle == 0.0 && it.parentLayer == Some(cfg.layer) &&
    it.scale == InitScale(cfg.prefab.sizing, sprite.value, cfg.prefab.scale, d.shrink)
  }

  class UITrashSpawnController {
    const cfg: SpawnConfig
    var elapsed: real
    var spawnTimer: real
    var currentMaxConcurrent: int
    var alive: seq<TrashItem>

    /** The applied cap never sits below its starting value. */
    ghost predicate Valid()
      reads this
    {
      elapsed >= 0.0 && currentMaxConcurrent >= MaxInt(1, cfg.initialMaxConcurrent)
    }

    /** Creation and Awake: the clock and timer at zero, the cap at max(1, initial). */
    constructor (cfg: SpawnConfig)
      ensures this.cfg == cfg && Valid()
      ensures elapsed == 0.0 && spawnTimer == 0.0 && alive == []
      ensures currentMaxConcurrent == MaxInt(1, cfg.initialMaxConcurrent)
    {
      this.cfg := cfg;
      elapsed, spawnTimer, alive := 0.0, 0.0, [];
      currentMaxConcurrent := MaxInt(1, cfg.initialMaxConcurrent);
    }

    /** The backward RemoveAt loop: drops destroyed entries and keeps the rest in order. */
    method CullDestroyed()
      modifies this`alive
      ensures alive == Surviving(old(alive))
    {
      var i := |alive| - 1;
      ghost var original := alive;
      while i >= 0
        invariant -1 <= i < |original|
        invariant alive == original[..i + 1] + Surviving(original[i + 1..])
        decreases i
      {
        ghost var tail := original[i + 1..];
        assert original[i..][1..] == tail;
        ghost var kept := Surviving(original[i..]);
        assert kept == (if original[i].destroyed then [] else [original[i]]) + Surviving(tail);
        assert alive[..i] == original[..i] && alive[i] == original[i] && alive[i + 1..] == Surviving(tail);
        if alive[i].destroyed {
          alive := alive[..i] + alive[i + 1..];
        } else {
          assert original[..i + 1] == original[..i] + [original[i]];
        }
        assert alive == original[..i] + kept;
        i := i - 1;
      }
      assert original[0..] == original;
    }

    /**
     * One spawn attempt. Abandoned (None) when the rolled category's sprite
     * pick comes back null; otherwise a new item, registered on creation,
     * placed above the layer and initialised, is appended to the live list.
     */
    method TrySpawnOne(d: SpawnDraws, registry: Registry) returns (spawned: Option<TrashItem>)
      requires ValidDraws(d)
      modifies this`alive, registry
      ensures var t := RollWasteType(cfg.weights, d.typeValue, d.typeIndex);
              var sprite := PickSpriteFor(cfg.pools, t, d.spriteIndex);
              (spawned.Some? <==> sprite.Some?) &&
              (spawned.None? ==> alive == old(alive) && registry.items == old(registry.items)) &&
              (spawned.Some? ==>
                 var it := spawned.value;
                 fresh(it) &&
                 alive == old(alive) + [it] &&
                 registry.items == old(registry.items) + {it} &&
                 SpawnedAsDrawn(it, cfg, elapsed, d))
    {
      var t := RollWasteType(cfg.weights, d.typeValue, d.typeIndex);
      var sprite := PickSpriteFor(cfg.pools, t, d.spriteIndex);
      if sprite.None? {
        return None;
      }
      var item := new TrashItem(cfg.prefab.sizing, cfg.prefab.width, cfg.prefab.height, cfg.prefab.scale);
      item.OnEnable(registry);
      item.angle := 0.0;
      item.position := TopSpawnPosition(cfg.layer, item.rectHeight, cfg.horizontalPadding, d.spawnX);
      var speed := ItemSpeed(cfg, elapsed, d.speedMultiplier);
      var rotation := ItemRotation(cfg, d.rotation);
      item.Init(t, sprite.value, speed, Some(cfg.layer), rotation, d.shrink);
      alive := alive + [item];
      spawned := Some(item);
    }

    /** The clock and the timer advance by dt, and the score gets the new multiplier. */
    method Advance(dt: real, score: ScoreController?)
      requires Valid() && dt >= 0.0
      modifies this`elapsed, this`spawnTimer, score
      ensures Valid()
      ensures elapsed == old(elapsed) + dt && spawnTimer == old(spawnTimer) + dt
      ensures score != null ==> score.multiplier == Max(MinMultiplier, SpeedMultiplier(cfg, elapsed)) &&
                                score.score == old(score.score)
    {
      elapsed := elapsed + dt;
      spawnTimer := spawnTimer + dt;
      var m := SpeedMultiplier(cfg, elapsed);
      if score != null {
        score.SetMultiplier(m);
      }
    }

    /** The applied cap rises to the curve's candidate when that is higher. */
    method RaiseCap()
      requires Valid()
      modifies this`currentMaxConcurrent
      ensures Valid()
      ensures currentMaxConcurrent == MaxInt(old(currentMaxConcurrent), CapCandidate(cfg, elapsed))
    {
      var target := CapCandidate(cfg, elapsed);
      if target > currentMaxConcurrent {
        currentMaxConcurrent := target;
      }
    }

    /**
     * One frame. When paused (or with the layer or prefab missing) nothing
     * changes. Otherwise the clock and timer advance by dt, the multiplier is
     * handed to the score, destroyed items are culled, the cap is raised to
     * its candidate if higher, and when the gate passes one spawn is attempted
     * and the timer is reset.
     */
    method Update(dt: real, paused: bool, wired: bool, d: SpawnDraws, registry: Registry, score: ScoreController?)
      returns (spawned: Option<TrashItem>)
      requires Valid() && dt >= 0.0 && ValidDraws(d)
      modifies this, registry, score
      ensures Valid()
      ensures paused || !wired ==>
                spawned.None? && unchanged(this) && unchanged(registry) &&
                (score != null ==> unchanged(score))
      ensures !(paused || !wired) ==>
                var culled := old(Surviving(alive));
                var gate := |culled| < currentMaxConcurrent && old(spawnTimer) + dt >= SpawnInterval(cfg, elapsed);
                elapsed == old(elapsed) + dt &&
                currentMaxConcurrent == MaxInt(old(currentMaxConcurrent), CapCandidate(cfg, elapsed)) &&
                (score != null ==> score.multiplier == Max(MinMultiplier, SpeedMultiplier(cfg, elapsed)) &&
                                   score.score == old(score.score)) &&
                (gate ==> spawnTimer == 0.0) &&
                (!gate ==> spawnTimer == old(spawnTimer) + dt && spawned.None?) &&
                (spawned.None? ==> alive == culled && registry.items == old(registry.items)) &&
                (spawned.Some? ==> fresh(spawned.value) && alive == culled + [spawned.value] &&
                                   registry.items == old(registry.items) + {spawned.value}) &&
                (spawned.Some? ==> SpawnedAsDrawn(spawned.value, cfg, elapsed, d)) &&
                (gate ==> (spawned.Some? <==>
                   PickSpriteFor(cfg.pools, RollWasteType(cfg.weights, d.typeValue, d.typeIndex), d.spriteIndex).Some?))
      ensures currentMaxConcurrent >= old(currentMaxConcurrent)
      ensures |alive| <= |old(alive)| + 1
    {
      if paused {
        return None;
      }
      if !wired {
        return None;
      }
      ghost var culled := Surviving(alive);
      Advance(dt, score);
      assert Surviving(alive) == culled;
      CullDestroyed();
      assert alive == culled;
      ghost var itemsBefore := registry.items;
      var currentInterval := SpawnInterval(cfg, elapsed);
      RaiseCap();
      spawned := None;
      if |alive| < currentMaxConcurrent && spawnTimer >= currentInterval {
        spawned := TrySpawnOne(d, registry);
        spawnTimer := 0.0;
      }
      assert spawned.None? ==> alive == culled && registry.items == itemsBefore;
    }
  }

  // ---------------------------------------------------------------------------
  // Scenarios from the game's tuning.

  /** At base speed 80 growing 4 px/s per second, 20 s in: base speed 160 and multiplier 2. */
  lemma SpeedScenario(cfg: SpawnConfig)
    requires cfg.baseSpeed == 80.0 && cfg.speedGrowthPerSecond == 4.0
    ensures BaseSpeedNow(cfg, 20.0) == 160.0
    ensures SpeedMultiplier(cfg, 20.0) == 2.0
    ensures Gain(10, Max(MinMultiplier, SpeedMultiplier(cfg, 20.0))) == 20
  {
    GainTenAtDouble();
  }

  /** Initial cap 1, one more every 25 s, hard cap 20: 1 at 0 s and 24.9 s, 2 at 25 s. */
  lemma CapScenario(cfg: SpawnConfig)
    requires cfg.initialMaxConcurrent == 1 && cfg.secondsPerConcurrentIncrease == 25.0
    requires cfg.hardCapMaxConcurrent == 20
    ensures CapCandidate(cfg, 0.0) == 1
    ensures CapCandidate(cfg, 24.9) == 1
    ensures CapCandidate(cfg, 25.0) == 2
  {
    assert (24.9 / 25.0).Floor == 0;
    assert (25.0 / 25.0).Floor == 1;
  }
}
