/**
 * A falling trash item and the registry of live items.
 *
 * An item is registered while it is enabled and unregistered when it is
 * disabled or destroyed; the registry is an unordered set, so a snapshot
 * may list its members in any order. Engine objects are reduced to plain
 * values: a rectangle size, an anchored position, a z angle in degrees and a
 * uniform scale. "Destroyed" stands for Unity's destroyed object, which
 * compares equal to null afterwards.
 */
module Trash {
  import opened Types

  /** The native pixel size of a sprite. */
  datatype Sprite = Sprite(width: real, height: real)

  /** The size of a UI layer rectangle. */
  datatype Layer = Layer(width: real, height: real)

  /** The per-item size settings serialized on the item prefab. */
  datatype Sizing = Sizing(minSizePixels: real, enableSizeVariance: bool, maxShrinkPixels: real)

  /** Distance below the bottom edge of the layer at which an item counts as missed. */
  const MissMargin: real := 200.0

  /**
   * Whether the random size variance sets the scale: it is enabled, the
   * native size is positive and above the minimum, and some shrink is allowed.
   */
  predicate VarianceApplies(sizing: Sizing, largest: real)
  {
    sizing.enableSizeVariance && largest > 0.0 && largest > sizing.minSizePixels && sizing.maxShrinkPixels > 0.0
  }

  /**
   * The uniform scale after the random size variance, from the largest native
   * dimension, the scale already applied, and the shrink draw u in [0, 1].
   * When the variance applies the scale is set outright, whatever it was.
   */
  function VarianceScale(sizing: Sizing, largest: real, prior: real, u: real): (s: real)
    requires IsFraction(u)
    ensures !VarianceApplies(sizing, largest) ==> s == prior
    ensures VarianceApplies(sizing, largest) ==>
              s <= 1.0 && largest * s >= sizing.minSizePixels &&
              largest - largest * s <= sizing.maxShrinkPixels
    ensures VarianceApplies(sizing, largest) ==>
              largest - largest * s == u * Min(sizing.maxShrinkPixels, largest - sizing.minSizePixels)
    ensures s != prior ==> s <= 1.0 && largest * s >= sizing.minSizePixels
    ensures s != prior && sizing.minSizePixels >= 0.0 ==> s >= 0.0
    ensures s != prior ==> largest - largest * s <= Max(0.0, sizing.maxShrinkPixels)
  {
    if !sizing.enableSizeVariance || largest <= 0.0 || largest <= sizing.minSizePixels then prior
    else
      var allowed := Min(Max(0.0, sizing.maxShrinkPixels), largest - sizing.minSizePixels);
      if allowed <= 0.0 then prior
      else
        var shrink := RangeDraw(0.0, allowed, u);
        var target := largest - shrink;
        assert sizing.minSizePixels <= target <= largest;
        var s := target / largest;
        assert largest * s == target;
        s
  }

  /**
   * The scale after the minimum-size rule. The rect size it reads is the
   * native size: localScale does not change a RectTransform's rect.
   */
  function MinimumSizeScale(sizing: Sizing, largest: real, prior: real): (s: real)
    ensures 0.0 < largest < sizing.minSizePixels ==> s * largest == prior * sizing.minSizePixels
    ensures !(0.0 < largest < sizing.minSizePixels) ==> s == prior
  {
    if largest < sizing.minSizePixels && largest > 0.0 then
      var s := prior * (sizing.minSizePixels / largest);
      assert s * largest == prior * sizing.minSizePixels;
      s
    else prior
  }

  /** The scale Init leaves on an item whose prefab scale is `prior`. */
  function InitScale(sizing: Sizing, sprite: Sprite, prior: real, u: real): (s: real)
    requires IsFraction(u)
    ensures var largest := Max(sprite.width, sprite.height);
            0.0 < largest < sizing.minSizePixels ==> s * largest == prior * sizing.minSizePixels
    ensures var largest := Max(sprite.width, sprite.height);
            largest >= sizing.minSizePixels && s != prior ==>
              s <= 1.0 && largest * s >= sizing.minSizePixels &&
              largest - largest * s <= Max(0.0, sizing.maxShrinkPixels)
    ensures var largest := Max(sprite.width, sprite.height);
            VarianceApplies(sizing, largest) ==>
              s <= 1.0 && largest * s >= sizing.minSizePixels &&
              largest - largest * s <= sizing.maxShrinkPixels
    ensures var largest := Max(sprite.width, sprite.height);
            largest >= sizing.minSizePixels && !VarianceApplies(sizing, largest) ==> s == prior
  {
    var largest := Max(sprite.width, sprite.height);
    MinimumSizeScale(sizing, largest, VarianceScale(sizing, largest, prior, u))
  }

  /**
   * Whatever the prefab scale, an item whose variance applies renders at
   * most its native size and never below the minimum. With a prefab at
   * scale 1 and any settings, an item never renders larger than its native
   * size unless the native size is below the minimum, and it never renders
   * its largest dimension below the minimum.
   */
  lemma InitScaleBounds(sizing: Sizing, sprite: Sprite, prior: real, u: real)
    requires IsFraction(u)
    requires Max(sprite.width, sprite.height) > 0.0
    ensures var largest := Max(sprite.width, sprite.height);
            var s := InitScale(sizing, sprite, prior, u);
            VarianceApplies(sizing, largest) ==> s <= 1.0 && largest * s >= sizing.minSizePixels
    ensures var largest := Max(sprite.width, sprite.height);
            var s := InitScale(sizing, sprite, prior, u);
            prior == 1.0 ==>
              largest * s >= sizing.minSizePixels &&
              (largest >= sizing.minSizePixels ==> s <= 1.0) &&
              (largest < sizing.minSizePixels ==> largest * s == sizing.minSizePixels)
  {
    var largest := Max(sprite.width, sprite.height);
    var s := InitScale(sizing, sprite, prior, u);
    if prior == 1.0 {
      if largest < sizing.minSizePixels {
        assert s * largest == 1.0 * sizing.minSizePixels;
      } else if !VarianceApplies(sizing, largest) {
        assert s == 1.0;
        assert largest * s == largest;
      }
    }
  }

  /**
   * The minimum-size rule reads the native rect size, not the rendered one:
   * with size variance off and a prefab at scale 0.5, a 100-pixel sprite
   * renders at 50 pixels although the minimum is 80.
   */
  lemma MinimumSizeSeesNativeSize()
    ensures var sizing := Sizing(80.0, false, 100.0);
            var s := InitScale(sizing, Sprite(100.0, 60.0), 0.5, 0.0);
            s == 0.5 && 100.0 * s < sizing.minSizePixels
  {
  }

  class TrashItem {
    var wasteType: WasteType
    var speed: real
    var rotationSpeedDegPerSec: real
    /** Anchored position inside the trash layer. */
    var position: Vec2
    /** Z rotation in degrees. */
    var angle: real
    /** Uniform local scale. */
    var scale: real
    /** Size of the item's rect (the native sprite size once Init has run). */
    var rectWidth: real
    var rectHeight: real
    /** The layer the item falls through; None before Init. */
    var parentLayer: Option<Layer>
    /** Whether Init has cached the item's own rect transform. */
    var initialized: bool
    var destroyed: bool
    const sizing: Sizing

    /** Instantiating the prefab: its rect size and scale, not yet initialised. */
    constructor (sizing: Sizing, prefabWidth: real, prefabHeight: real, prefabScale: real)
      ensures this.sizing == sizing && rectWidth == prefabWidth && rectHeight == prefabHeight
      ensures scale == prefabScale && position == Vec2(0.0, 0.0) && angle == 0.0
      ensures parentLayer == None && !initialized && !destroyed
      ensures wasteType == Glass && speed == 0.0 && rotationSpeedDegPerSec == 0.0
    {
      this.sizing := sizing;
      wasteType, speed, rotationSpeedDegPerSec := Glass, 0.0, 0.0;
      position, angle, scale := Vec2(0.0, 0.0), 0.0, prefabScale;
      rectWidth, rectHeight := prefabWidth, prefabHeight;
      parentLayer, initialized, destroyed := None, false, false;
    }

    /**
     * Stores the category, speed and rotation rate unchanged, sizes the rect
     * to the sprite's native size, then applies the size variance (shrink
     * draw u) and the minimum size.
     */
    method Init(t: WasteType, sprite: Sprite, moveSpeed: real, layer: Option<Layer>, rotationDegPerSec: real, u: real)
      requires IsFraction(u)
      modifies this
      ensures wasteType == t && speed == moveSpeed && rotationSpeedDegPerSec == rotationDegPerSec
      ensures initialized && parentLayer == layer
      ensures rectWidth == sprite.width && rectHeight == sprite.height
      ensures scale == InitScale(sizing, sprite, old(scale), u)
      ensures position == old(position) && angle == old(angle) && destroyed == old(destroyed)
    {
      initialized := true;
      parentLayer := layer;
      wasteType := t;
      speed := moveSpeed;
      rotationSpeedDegPerSec := rotationDegPerSec;
      rectWidth, rectHeight := sprite.width, sprite.height;
      ApplyRandomSizeVariance(u);
      ApplyMinimumSize();
    }

    method ApplyRandomSizeVariance(u: real)
      requires IsFraction(u)
      modifies this`scale
      ensures scale == VarianceScale(sizing, Max(rectWidth, rectHeight), old(scale), u)
    {
      scale := VarianceScale(sizing, Max(rectWidth, rectHeight), scale, u);
    }

    method ApplyMinimumSize()
      modifies this`scale
      ensures scale == MinimumSizeScale(sizing, Max(rectWidth, rectHeight), old(scale))
    {
      scale := MinimumSizeScale(sizing, Max(rectWidth, rectHeight), scale);
    }

    method OnEnable(registry: Registry)
      modifies registry
      ensures registry.items == old(registry.items) + {this}
    {
      registry.Register(this);
    }

    method OnDisable(registry: Registry)
      modifies registry
      ensures registry.items == old(registry.items) - {this}
    {
      registry.Unregister(this);
    }

    /** Destroy: the object is gone and, being disabled, leaves the registry. */
    method DestroySelf(registry: Registry)
      modifies this`destroyed, registry
      ensures destroyed
      ensures registry.items == old(registry.items) - {this}
    {
      destroyed := true;
      OnDisable(registry);
    }

    /** The lowest anchored y an item may reach without being missed. */
    static function MissLine(layer: Layer): real
    {
      -(layer.height * 0.5) - MissMargin
    }

    /**
     * One frame: fall by speed * dt and turn by rate * dt; below the miss line
     * raise the missed signal (the result) and destroy the item. The engine
     * never updates an item after destroying it.
     */
    method Update(dt: real, paused: bool, registry: Registry) returns (missed: bool)
      requires !destroyed
      modifies this`position, this`angle, this`destroyed, registry
      ensures paused || !initialized || parentLayer.None? || dt <= 0.0 ==>
                !missed && unchanged(this) && unchanged(registry)
      ensures !(paused || !initialized || parentLayer.None? || dt <= 0.0) ==>
                position == Vec2(old(position.x), old(position.y) - speed * dt) &&
                angle == old(angle) + rotationSpeedDegPerSec * dt &&
                (missed <==> position.y < MissLine(parentLayer.value)) &&
                destroyed == missed &&
                registry.items == if missed then old(registry.items) - {this} else old(registry.items)
    {
      if paused {
        return false;
      }
      if !initialized || parentLayer.None? {
        return false;
      }
      if dt <= 0.0 {
        return false;
      }
      position := Vec2(position.x, position.y - speed * dt);
      angle := angle + rotationSpeedDegPerSec * dt;
      missed := position.y < MissLine(parentLayer.value);
      if missed {
        DestroySelf(registry);
      }
    }
  }

  /** The live items; static in the game, one shared object here. */
  class Registry {
    var items: set<TrashItem>

    constructor ()
      ensures items == {}
    {
      items := {};
    }

    method Register(item: TrashItem?)
      modifies this
      ensures item == null ==> items == old(items)
      ensures item != null ==> items == old(items) + {item}
    {
      if item != null {
        items := items + {item};
      }
    }

    method Unregister(item: TrashItem?)
      modifies this
      ensures item == null ==> items == old(items)
      ensures item != null ==> items == old(items) - {item}
    {
      if item != null {
        items := items - {item};
      }
    }

    /**
     * A fresh buffer holding every member that has not been destroyed, once
     * each, in an order the set does not specify.
     */
    method SnapshotTo() returns (buffer: seq<TrashItem>)
      ensures NoDuplicates(buffer)
      ensures forall x :: x in buffer <==> x in items && !x.destroyed
    {
      buffer := [];
      var rest := items;
      while rest != {}
        invariant rest <= items
        invariant NoDuplicates(buffer)
        invariant forall x :: x in buffer ==> x in items && x !in rest && !x.destroyed
        invariant forall x :: x in items && x !in rest && !x.destroyed ==> x in buffer
        decreases rest
      {
        var it :| it in rest;
        if !it.destroyed {
          buffer := buffer + [it];
        }
        rest := rest - {it};
      }
    }
  }

  predicate NoDuplicates<T(==)>(s: seq<T>)
  {
    forall i, j :: 0 <= i < j < |s| ==> s[i] != s[j]
  }
}
