/**
 * The player's projectile. Each unpaused frame it moves along its direction,
 * takes a snapshot of the registry and scans it in snapshot order; the first
 * item whose rectangle overlaps its own decides the frame: same category
 * scores 10 base points and destroys both, a different category leaves the
 * item alive and destroys the projectile only when destroyOnMismatch is set.
 * With no overlap, a projectile whose rectangle no longer overlaps the play
 * field is destroyed.
 *
 * Rectangles follow Unity's Rect: origin (x, y) with a width and a height
 * that may be negative. Overlaps(other, true) passes allowInverse, which
 * normalises both rectangles first; the comparisons are strict, so
 * rectangles that only touch along an edge do not overlap.
 */
module Projectile {
  import opened Types
  import opened Trash
  import opened Score

  datatype Rect = Rect(x: real, y: real, width: real, height: real)

  /** The four world corners GetWorldCorners reports, in any order. */
  datatype Corners = Corners(c0: Vec2, c1: Vec2, c2: Vec2, c3: Vec2)

  /** Base points for a same-category hit. */
  const HitPoints: int := 10

  /** A direction shorter than this (squared) counts as no direction. */
  const MinSqrMagnitude: real := 0.0001

  function XMin(r: Rect): real { Min(r.x, r.x + r.width) }
  function XMax(r: Rect): real { Max(r.x, r.x + r.width) }
  function YMin(r: Rect): real { Min(r.y, r.y + r.height) }
  function YMax(r: Rect): real { Max(r.y, r.y + r.height) }

  /** Rect.Overlaps(other, allowInverse: true). */
  predicate Overlaps(a: Rect, b: Rect)
    ensures Overlaps(a, b) ==>
              Max(XMin(a), XMin(b)) <= Min(XMax(a), XMax(b)) && Max(YMin(a), YMin(b)) <= Min(YMax(a), YMax(b))
    ensures Max(XMin(a), XMin(b)) < Min(XMax(a), XMax(b)) && Max(YMin(a), YMin(b)) < Min(YMax(a), YMax(b)) ==>
              Overlaps(a, b)
  {
    XMax(b) > XMin(a) && XMin(b) < XMax(a) && YMax(b) > YMin(a) && YMin(b) < YMax(a)
  }

  /** The axis-aligned bounding rectangle of four corners. */
  function RectFromCorners(c: Corners): (r: Rect)
    ensures r.width >= 0.0 && r.height >= 0.0
    ensures r.x == Min(Min(c.c0.x, c.c1.x), Min(c.c2.x, c.c3.x))
    ensures r.y == Min(Min(c.c0.y, c.c1.y), Min(c.c2.y, c.c3.y))
    ensures r.x + r.width == Max(Max(c.c0.x, c.c1.x), Max(c.c2.x, c.c3.x))
    ensures r.y + r.height == Max(Max(c.c0.y, c.c1.y), Max(c.c2.y, c.c3.y))
  {
    var minX := Min(Min(c.c0.x, c.c1.x), Min(c.c2.x, c.c3.x));
    var maxX := Max(Max(c.c0.x, c.c1.x), Max(c.c2.x, c.c3.x));
    var minY := Min(Min(c.c0.y, c.c1.y), Min(c.c2.y, c.c3.y));
    var maxY := Max(Max(c.c0.y, c.c1.y), Max(c.c2.y, c.c3.y));
    Rect(minX, minY, maxX - minX, maxY - minY)
  }

  /** Overlap does not depend on which rectangle asks. */
  lemma OverlapsSymmetric(a: Rect, b: Rect)
    ensures Overlaps(a, b) <==> Overlaps(b, a)
  {
  }

  /** A rectangle of zero width still overlaps a rectangle that it lies strictly inside. */
  lemma ZeroWidthOverlaps()
    ensures Overlaps(Rect(5.0, 2.0, 0.0, 4.0), Rect(0.0, 0.0, 10.0, 10.0))
  {
  }

  /** Rectangles that share only an edge do not overlap. */
  lemma TouchingEdgesDoNotOverlap(a: Rect, b: Rect)
    requires a.width >= 0.0 && b.width >= 0.0
    requires a.x + a.width == b.x
    ensures !Overlaps(a, b)
  {
  }

  /** A rectangle of positive size overlaps any rectangle that contains it. */
  lemma ContainedOverlaps(outer: Rect, inner: Rect)
    requires inner.width > 0.0 && inner.height > 0.0
    requires outer.width >= 0.0 && outer.height >= 0.0
    requires outer.x <= inner.x && inner.x + inner.width <= outer.x + outer.width
    requires outer.y <= inner.y && inner.y + inner.height <= outer.y + outer.height
    ensures Overlaps(outer, inner) && Overlaps(inner, outer)
  {
  }

  /** The corners of a rectangle of the given half size centred on p. */
  function CornersAround(p: Vec2, half: Vec2): Corners
  {
    Corners(Vec2(p.x - half.x, p.y - half.y), Vec2(p.x - half.x, p.y + half.y),
            Vec2(p.x + half.x, p.y + half.y), Vec2(p.x + half.x, p.y - half.y))
  }

  lemma RectAround(p: Vec2, half: Vec2)
    requires half.x >= 0.0 && half.y >= 0.0
    ensures RectFromCorners(CornersAround(p, half)) ==
            Rect(p.x - half.x, p.y - half.y, 2.0 * half.x, 2.0 * half.y)
  {
  }

  /**
   * SetDirection: a near-zero vector becomes straight up, any other is
   * normalised. `length` is the vector's length (its square root is left to
   * the caller).
   */
  function Direction(d: Vec2, length: real): (r: Vec2)
    requires SqrMagnitude(d) >= MinSqrMagnitude ==> length > 0.0 && length * length == SqrMagnitude(d)
    ensures SqrMagnitude(d) < MinSqrMagnitude ==> r == Up
    ensures SqrMagnitude(d) >= MinSqrMagnitude ==>
              SqrMagnitude(r) == 1.0 && r.x * length == d.x && r.y * length == d.y
  {
    if SqrMagnitude(d) < MinSqrMagnitude then Up
    else
      var r := Vec2(d.x / length, d.y / length);
      assert r.x * length == d.x && r.y * length == d.y;
      var l2 := length * length;
      assert l2 > 0.0;
      assert SqrMagnitude(r) * l2 == SqrMagnitude(d) == l2;
      assert (SqrMagnitude(r) - 1.0) * l2 == 0.0;
      r
  }

  /** Whether the item at index k of the buffer overlaps rectangle me. */
  predicate HitsAt(buffer: seq<TrashItem>, k: int, me: Rect, cornersOf: TrashItem -> Corners)
    requires 0 <= k < |buffer|
  {
    Overlaps(me, RectFromCorners(cornersOf(buffer[k])))
  }

  /** No item before index k overlaps rectangle me. */
  predicate NoHitBefore(buffer: seq<TrashItem>, k: int, me: Rect, cornersOf: TrashItem -> Corners)
    requires 0 <= k <= |buffer|
  {
    forall j :: 0 <= j < k ==> !HitsAt(buffer, j, me, cornersOf)
  }

  /** How one frame ended for the projectile. */
  datatype Outcome =
    | Frozen             // paused, no rect, or no time passed: nothing happened
    | Matched(index: nat)    // same category at this snapshot index
    | Mismatched(index: nat) // different category at this snapshot index
    | Escaped            // no overlap, and outside the play field
    | Flying             // no overlap, still inside (or no play field known)

  class UIProjectile {
    const speed: real
    /** Half the size of the projectile's rect, in the layer's units. */
    const halfSize: Vec2
    /** Whether the projectile has its rect transform (cached in Awake). */
    const hasRect: bool
    const destroyOnMismatch: bool
    var magicType: WasteType
    var position: Vec2
    var direction: Vec2
    var destroyed: bool
    var trashBuffer: seq<TrashItem>

    constructor (speed: real, halfSize: Vec2, hasRect: bool, destroyOnMismatch: bool, magicType: WasteType, position: Vec2)
      ensures this.speed == speed && this.halfSize == halfSize && this.hasRect == hasRect
      ensures this.destroyOnMismatch == destroyOnMismatch && this.magicType == magicType
      ensures this.position == position && direction == Up && !destroyed && trashBuffer == []
    {
      this.speed, this.halfSize, this.hasRect := speed, halfSize, hasRect;
      this.destroyOnMismatch, this.magicType := destroyOnMismatch, magicType;
      this.position, direction, destroyed, trashBuffer := position, Up, false, [];
    }

    method SetMagicType(t: WasteType)
      modifies this`magicType
      ensures magicType == t
    {
      magicType := t;
    }

    method SetDirection(d: Vec2, length: real)
      requires SqrMagnitude(d) >= MinSqrMagnitude ==> length > 0.0 && length * length == SqrMagnitude(d)
      modifies this`direction
      ensures direction == Direction(d, length)
    {
      direction := Direction(d, length);
    }

    /** The projectile's world rectangle at its current position. */
    function WorldRect(): Rect
      reads this
    {
      RectFromCorners(CornersAround(position, halfSize))
    }

    method DestroySelf()
      modifies this`destroyed
      ensures destroyed
    {
      destroyed := true;
    }

    /**
     * One frame. `cornersOf` gives each item's world corners and `bounds` the
     * play field's (None when there is no bounds root); `score` is the score
     * singleton, possibly absent. The engine never updates a destroyed projectile.
     */
    method Update(dt: real, paused: bool, registry: Registry, cornersOf: TrashItem -> Corners,
                  bounds: Option<Corners>, score: ScoreController?)
      returns (outcome: Outcome)
      requires !destroyed
      modifies this`position, this`destroyed, this`trashBuffer, registry, registry.items`destroyed, score
      ensures magicType == old(magicType) && direction == old(direction)
      ensures outcome == Frozen <==> paused || !hasRect || dt <= 0.0
      ensures outcome == Frozen ==>
                unchanged(this) && unchanged(registry) && (score != null ==> unchanged(score)) &&
                forall x :: x in old(registry.items) ==> x.destroyed == old(x.destroyed)
      ensures outcome != Frozen ==>
                position == Add(old(position), Scale(direction, speed * dt)) &&
                NoDuplicates(trashBuffer) &&
                (forall x :: x in trashBuffer <==> x in old(registry.items) && !old(x.destroyed))
      ensures (outcome.Matched? || outcome.Mismatched?) ==>
                outcome.index < |trashBuffer| &&
                HitsAt(trashBuffer, outcome.index, WorldRect(), cornersOf) &&
                NoHitBefore(trashBuffer, outcome.index, WorldRect(), cornersOf)
      ensures outcome.Matched? ==>
                var target := trashBuffer[outcome.index];
                target.wasteType == magicType && target.destroyed && destroyed &&
                registry.items == old(registry.items) - {target} &&
                (score != null ==> score.score == old(score.score) + Gain(HitPoints, old(score.multiplier)) &&
                                   score.multiplier == old(score.multiplier)) &&
                forall x :: x in old(registry.items) && x != target ==> x.destroyed == old(x.destroyed)
      ensures outcome.Mismatched? ==>
                trashBuffer[outcome.index].wasteType != magicType &&
                destroyed == destroyOnMismatch
      ensures outcome.Escaped? || outcome.Flying? ==>
                NoHitBefore(trashBuffer, |trashBuffer|, WorldRect(), cornersOf) &&
                (outcome.Escaped? <==> bounds.Some? && !Overlaps(WorldRect(), RectFromCorners(bounds.value))) &&
                destroyed == outcome.Escaped?
      ensures !outcome.Matched? ==>
                registry.items == old(registry.items) && (score != null ==> unchanged(score)) &&
                forall x :: x in old(registry.items) ==> x.destroyed == old(x.destroyed)
    {
      if paused || !hasRect {
        return Frozen;
      }
      if dt <= 0.0 {
        return Frozen;
      }
      position := Add(position, Scale(direction, speed * dt));

      trashBuffer := registry.SnapshotTo();
      var i := 0;
      while i < |trashBuffer|
        invariant 0 <= i <= |trashBuffer|
        invariant forall j :: 0 <= j < i ==> trashBuffer[j].destroyed || !HitsAt(trashBuffer, j, WorldRect(), cornersOf)
      {
        var trash := trashBuffer[i];
        if trash.destroyed {
          i := i + 1;
          continue;
        }
        if HitsAt(trashBuffer, i, WorldRect(), cornersOf) {
          if trash.wasteType == magicType {
            if score != null {
              score.AddBasePoints(HitPoints);
            }
            trash.DestroySelf(registry);
            DestroySelf();
            return Matched(i);
          } else if destroyOnMismatch {
            DestroySelf();
          }
          return Mismatched(i);
        }
        i := i + 1;
      }

      outcome := Flying;
      if bounds.Some? && !Overlaps(WorldRect(), RectFromCorners(bounds.value)) {
        DestroySelf();
        outcome := Escaped;
      }
    }
  }
}
