# Falling-trash sorter: a Dafny model of the gameplay core

This project models the gameplay simulation of a Unity arcade game. Trash items of four categories fall through a UI layer, and the player fires magic projectiles to sort them. It models these parts:

- The spawner (`Spawner.UITrashSpawnController`). Over the session it raises the fall speed, the spawn rate and the number of items allowed on screen at once. It rolls each item's category by weight and places the item above the layer.
- The falling items (`Trash.TrashItem`). An item falls and turns each frame. Below the miss line it raises the missed signal and destroys itself. When it is initialised it gets a size scale between a minimum pixel size and its native size.
- The registry of live items (`Trash.Registry`). It is a set, and a snapshot lists its members that are not destroyed, in no particular order.
- The projectile (`Projectile.UIProjectile`). It moves, scans a registry snapshot and settles only the first overlapping item:
  - the same category scores 10 base points and destroys both;
  - a different category spares the item and destroys the projectile only when `destroyOnMismatch` is set.

  A projectile that found no overlap and has left the play field is destroyed.
- The two-slot magic queue (`MagicQueue.PlayerMagicQueue`). It holds the current category and a preview. When the no-repeat rule is on, the preview is redrawn until it differs from the current category.
- The score (`Score.ScoreController`): base points times a multiplier that is never below 0.1, rounded half to even.
- The lives and the game-over latch (`Life.LifeController`), together with the heart images.
- The player's shooter (`Shooter.UIPlayerShooter`). It has a cooldown, fires the queue's current category and advances the queue.
- The how-to-play pager (`Pager.HowToPlayPager`): a clamped page index with one page shown at a time.

Each engine object is reduced to the state the game logic reads and writes:

- a rect size, an anchored position, a z angle and a uniform scale;
- a `destroyed` flag, which stands for Unity's destroyed object that compares equal to null.

Per-frame inputs are parameters of each `Update`. These are the frame time, the global pause flag and the game-over flag.

Randomness is also a parameter: the caller supplies each draw as a fraction.

- For an integer `Random.Range(0, n)`, the fraction u lies in [0, 1), and the result is `floor(u * n)`.
- For a float `Random.Range(lo, hi)` and for `Random.value`, which include both ends, u lies in [0, 1], and the result is `lo + u * (hi - lo)`.

A do-while resampling loop takes a sequence of draws that holds at least one acceptable draw. It settles on the first acceptable one (`MagicQueue.FirstAcceptable`).

Static events become results or explicit calls:

- The missed signal is `Update`'s result.
- `OnChanged` is a `Changed` value.
- The score singleton is a nullable parameter.
- Destroying an item disables it, and so unregisters it.

Where the code and its comments or the obvious reading differ, the model follows the code:

- **Strict overlap.** `Rect.Overlaps(other, true)` passes allowInverse, which first normalises both rectangles. The comparisons are strict, so rectangles that only touch along an edge do not overlap (`Projectile.TouchingEdgesDoNotOverlap`). A rectangle of zero width still overlaps one it lies strictly inside (`Projectile.ZeroWidthOverlaps`).
- **Abandoned spawns.** The spawn timer is reset whenever the spawn gate passes, even when the attempt is abandoned because the sprite pick came back null.
- **`Random.value` can be 1.** The category roll then returns Paper even when Paper's weight is zero (`Spawner.RollAtOneIsPaper`).
- **Minimum size uses the native size.** `ApplyMinimumSize` reads the rect size, which `localScale` does not change, so it compares the native size with the minimum. A comment there says the scaled size is meant. With a prefab scale of 1 the two agree (`Trash.InitScaleBounds`). With another prefab scale they need not agree (`Trash.MinimumSizeSeesNativeSize`).

## Model

| member | source | states |
|---|---|---|
| Types.FromIndex | Assets/Scripts/Items/WasteType.cs:6-12 | The cast of 0..3 to a category is the inverse of the enum value: `Index(FromIndex(v)) == v` |
| Types.FromIndexOnto | Assets/Scripts/Items/WasteType.cs:6-12 | Every category is the cast of its own enum value |
| Types.RangeDraw | Assets/Scripts/Items/UITrashSpawnController.cs:113 | A float Random.Range draw lies between its two ends, in either order |
| Types.IndexDraw | Assets/Scripts/Player/PlayerMagicQueue.cs:42 | An integer Random.Range(0, n) draw is an index below n |
| Spawner.BaseSpeedNow | Assets/Scripts/Items/UITrashSpawnController.cs:78 | The current base speed is at least 10 and at least base + growth * elapsed |
| Spawner.SpeedMultiplier | Assets/Scripts/Items/UITrashSpawnController.cs:78-79 | The multiplier handed to the score lies in [1, 10] |
| Spawner.SpawnInterval | Assets/Scripts/Items/UITrashSpawnController.cs:84 | The spawn interval is never below minSpawnInterval |
| Spawner.IntervalNonIncreasing | Assets/Scripts/Items/UITrashSpawnController.cs:84 | With a non-negative acceleration the interval never grows as time passes |
| Spawner.CapCandidate | Assets/Scripts/Items/UITrashSpawnController.cs:86-89 | The cap the curve asks for never exceeds the hard cap |
| Spawner.FloorMonotone | Assets/Scripts/Items/UITrashSpawnController.cs:88 | FloorToInt is monotone |
| Spawner.CapCandidateMonotone | Assets/Scripts/Items/UITrashSpawnController.cs:86-89 | The cap candidate never falls as time passes |
| Spawner.ItemSpeed | Assets/Scripts/Items/UITrashSpawnController.cs:112-114 | An item's fall speed is at least 5, and at least 0.05 times the current base speed |
| Spawner.ApplyDeadZone | Assets/Scripts/Items/UITrashSpawnController.cs:117-121 | The rate's magnitude is at least the dead zone and its sign is kept, 0 becomes +deadZone, and a rate outside the dead zone is untouched |
| Spawner.ItemRotation | Assets/Scripts/Items/UITrashSpawnController.cs:116-121 | A drawn rotation rate never lies inside the dead zone |
| Spawner.TopSpawnPosition | Assets/Scripts/Items/UITrashSpawnController.cs:178-185 | x lies between the padded layer edges, and the item's bottom edge sits 40 above the layer's top edge |
| Spawner.ClampedWeight | Assets/Scripts/Items/UITrashSpawnController.cs:140-143 | A configured weight is clamped to at least 0 |
| Spawner.CumulativeBefore | Assets/Scripts/Items/UITrashSpawnController.cs:144-152 | A category's bucket starts at 0 or later and ends no later than the weight sum |
| Spawner.WalkBuckets | Assets/Scripts/Items/UITrashSpawnController.cs:148-152 | The walk returns Glass exactly when r lies below the first bound, and each later category only when r lies in that category's cumulative bucket; Paper takes everything past the third bound |
| Spawner.RollWasteType | Assets/Scripts/Items/UITrashSpawnController.cs:138-153 | With no positive weight the category is the uniform draw floor(4u). Otherwise value * sum lies in the rolled category's bucket: at or after its start, and before its end unless the category is Paper |
| Spawner.RollFallbackUniform | Assets/Scripts/Items/UITrashSpawnController.cs:146 | With no positive weight, every category is produced by some draw of the uniform fallback |
| Spawner.RollSelectsBucket | Assets/Scripts/Items/UITrashSpawnController.cs:144-153 | For r = value * sum in [0, sum), the roll is the category whose cumulative bucket holds r, so a category of zero weight never comes out |
| Spawner.RollAtOneIsPaper | Assets/Scripts/Items/UITrashSpawnController.cs:148-152 | At Random.value == 1 the roll is Paper, whatever the weights |
| Spawner.PickSpriteFor | Assets/Scripts/Items/UITrashSpawnController.cs:155-166 | An empty pool gives null; otherwise the result is the pool entry at the drawn index |
| Spawner.PickSpriteNoneIffEmpty | Assets/Scripts/Items/UITrashSpawnController.cs:165-166 | For a pool without null entries, the pick is null exactly when the pool is empty |
| Spawner.SurvivingMembers | Assets/Scripts/Items/UITrashSpawnController.cs:132-136 | An entry survives culling exactly when it was listed and is not destroyed |
| Spawner.UITrashSpawnController.constructor | Assets/Scripts/Items/UITrashSpawnController.cs:59-67 | After Awake the clock and timer are at 0, the live list is empty, and the cap is max(1, initialMaxConcurrent) |
| Spawner.UITrashSpawnController.CullDestroyed | Assets/Scripts/Items/UITrashSpawnController.cs:132-136 | The backward RemoveAt loop keeps exactly the entries that are not destroyed, in their order |
| Spawner.UITrashSpawnController.Advance | Assets/Scripts/Items/UITrashSpawnController.cs:74-80 | The clock and timer grow by dt, and the score's multiplier becomes max(0.1, SpeedMultiplier) with the score untouched |
| Spawner.UITrashSpawnController.RaiseCap | Assets/Scripts/Items/UITrashSpawnController.cs:86-91 | The applied cap becomes the larger of itself and the candidate, so it never falls |
| Spawner.UITrashSpawnController.TrySpawnOne | Assets/Scripts/Items/UITrashSpawnController.cs:100-130 | Rolls a category and picks a sprite. A null sprite abandons the attempt with nothing changed. Otherwise one fresh registered item is appended with the rolled category, drawn speed and rotation, top spawn position, layer and init scale |
| Spawner.UITrashSpawnController.Update | Assets/Scripts/Items/UITrashSpawnController.cs:69-98 | Paused or unwired: nothing changes. Otherwise the clock and timer advance, and the score multiplier is set with the score unchanged. The list is culled, and the cap only rises, to its candidate. At most one item is added, only when the gate passes, and the timer is reset whenever the gate passes. An added item is fresh and registered. It is live and initialised with the rolled category, the drawn speed and rotation, the top spawn position, the layer, and the init scale of the picked sprite, all at the new clock |
| Spawner.SpeedScenario | Assets/Scripts/Items/UITrashSpawnController.cs:32-33 | With the default tuning, 20 s in the base speed is 160, the multiplier is 2, and a hit scores 20 |
| Spawner.CapScenario | Assets/Scripts/Items/UITrashSpawnController.cs:46-48 | With the default tuning the cap candidate is 1 at 0 s and at 24.9 s, and 2 at 25 s |
| Trash.VarianceScale | Assets/Scripts/Items/UITrashItem.cs:67-90 | The variance applies exactly when it is enabled, the native size is positive and above the minimum, and maxShrinkPixels is positive; otherwise the scale is untouched. When it applies, the scale is set outright, whatever it was before. It is at most 1, keeps the largest dimension at or above the minimum, and shrinks it by u times min(maxShrinkPixels, largest - min), which is never more than maxShrinkPixels |
| Trash.MinimumSizeScale | Assets/Scripts/Items/UITrashItem.cs:92-108 | For 0 < largest < min the scale is multiplied by min/largest; otherwise it is untouched |
| Trash.InitScale | Assets/Scripts/Items/UITrashItem.cs:49-56 | A native size below the minimum is scaled so that it renders at exactly the minimum relative to the prefab scale. When the variance applies, the scale is at most 1, keeps the largest dimension at or above the minimum, and shrinks it by at most maxShrinkPixels, whatever the prefab scale. At or above the minimum without variance, the prefab scale is kept |
| Trash.InitScaleBounds | Assets/Scripts/Items/UITrashItem.cs:49-56 | For any prefab scale, an item whose variance applies renders at most at its native size and never below the minimum. For a prefab at scale 1, the rendered largest dimension is at least the minimum, and the scale is at most 1 unless the native size is below the minimum |
| Trash.MinimumSizeSeesNativeSize | Assets/Scripts/Items/UITrashItem.cs:96-101 | The minimum rule compares the native size: with variance off and a prefab at scale 0.5, an item can render below the minimum |
| Trash.TrashItem.constructor | Assets/Scripts/Items/UITrashItem.cs:11-18 | A new instance carries the prefab's rect size and scale, and is not initialised |
| Trash.TrashItem.Init | Assets/Scripts/Items/UITrashItem.cs:33-58 | Stores the category, speed, rotation rate and layer unchanged, takes the sprite's native size, and applies variance and then the minimum size |
| Trash.TrashItem.ApplyRandomSizeVariance | Assets/Scripts/Items/UITrashItem.cs:67-90 | The scale becomes the variance scale of the native size |
| Trash.TrashItem.ApplyMinimumSize | Assets/Scripts/Items/UITrashItem.cs:92-108 | The scale becomes the minimum-size scale of the native size |
| Trash.TrashItem.OnEnable | Assets/Scripts/Items/UITrashItem.cs:60 | Enabling registers the item |
| Trash.TrashItem.OnDisable | Assets/Scripts/Items/UITrashItem.cs:61 | Disabling unregisters the item |
| Trash.TrashItem.DestroySelf | Assets/Scripts/Items/UITrashItem.cs:130-134 | A destroyed item is gone and out of the registry |
| Trash.TrashItem.Update | Assets/Scripts/Items/UITrashItem.cs:110-128 | Paused, uninitialised, without a layer, or with dt <= 0: nothing changes. Otherwise y falls by speed * dt and the angle grows by rate * dt. The item is missed, and then destroyed and unregistered, exactly when y is below -halfHeight - 200 |
| Trash.Registry.constructor | Assets/Scripts/Items/UITrashRegistry.cs:8 | The registry starts empty |
| Trash.Registry.Register | Assets/Scripts/Items/UITrashRegistry.cs:10-13 | null leaves the set unchanged; otherwise the item is added, and adding twice has the effect of adding once |
| Trash.Registry.Unregister | Assets/Scripts/Items/UITrashRegistry.cs:15-18 | null leaves the set unchanged; otherwise exactly that item is removed |
| Trash.Registry.SnapshotTo | Assets/Scripts/Items/UITrashRegistry.cs:20-25 | A fresh buffer with no duplicates that holds exactly the members not destroyed; the registry is unchanged |
| Projectile.RectFromCorners | Assets/Scripts/System/UIProjectile.cs:146-153 | The bounding rectangle: origin at min x and min y, non-negative width and height, far edges at max x and max y |
| Projectile.Overlaps | Assets/Scripts/System/UIProjectile.cs:135-142 | Overlapping rectangles have non-empty intersections on both axes, and a strictly positive intersection on both axes is an overlap |
| Projectile.ZeroWidthOverlaps | Assets/Scripts/System/UIProjectile.cs:141 | The strict comparisons still let a rectangle of zero width overlap one it lies strictly inside |
| Projectile.OverlapsSymmetric | Assets/Scripts/System/UIProjectile.cs:135-142 | Overlap does not depend on which rectangle asks |
| Projectile.TouchingEdgesDoNotOverlap | Assets/Scripts/System/UIProjectile.cs:141 | Rectangles that share only an edge do not overlap, because the comparisons are strict |
| Projectile.ContainedOverlaps | Assets/Scripts/System/UIProjectile.cs:126-133 | A projectile of positive size inside the bounds overlaps them, so it is not outside |
| Projectile.RectAround | Assets/Scripts/System/UIProjectile.cs:146-153 | The corners of a centred rectangle give back that rectangle |
| Projectile.Direction | Assets/Scripts/System/UIProjectile.cs:104-107 | A squared length below 0.0001 gives up (0, 1); any other vector is scaled to unit length |
| Projectile.UIProjectile.constructor | Assets/Scripts/System/UIProjectile.cs:13-33 | A new projectile flies up with an empty buffer |
| Projectile.UIProjectile.SetMagicType | Assets/Scripts/System/UIProjectile.cs:97-101 | Stores the category |
| Projectile.UIProjectile.SetDirection | Assets/Scripts/System/UIProjectile.cs:104-107 | Stores the normalised direction, or up |
| Projectile.UIProjectile.DestroySelf | Assets/Scripts/System/UIProjectile.cs:155-158 | The projectile is destroyed |
| Projectile.UIProjectile.Update | Assets/Scripts/System/UIProjectile.cs:58-95 | Frozen exactly when paused, without a rect, or with dt <= 0, and then nothing changes. Otherwise it moves by dir * speed * dt and snapshots the registry, and only the first overlapping item decides. A match adds Gain(10) and destroys both, with nothing else touched. No item field other than the target's `destroyed` flag can change. A mismatch spares the item and destroys the projectile iff destroyOnMismatch. With no overlap it is destroyed iff bounds exist and it no longer overlaps them |
| MagicQueue.RandomType | Assets/Scripts/Player/PlayerMagicQueue.cs:40-44 | A draw gives the category whose enum value is floor(4u), always one of the four |
| MagicQueue.RandomTypeOnto | Assets/Scripts/Player/PlayerMagicQueue.cs:40-44 | Every category can be drawn |
| MagicQueue.FirstAcceptable | Assets/Scripts/Player/PlayerMagicQueue.cs:23 | The resampling loop settles on the first acceptable draw: the category is accepted by the no-repeat rule, it is the category of some draw i, and every draw before i is rejected |
| MagicQueue.NoAvoidTakesFirstDraw | Assets/Scripts/Player/PlayerMagicQueue.cs:32 | Without the no-repeat rule the loop body runs once and takes the first draw |
| MagicQueue.RepeatPossibleWithoutAvoid | Assets/Scripts/Player/PlayerMagicQueue.cs:23 | Without the no-repeat rule the preview may equal the current category |
| MagicQueue.PlayerMagicQueue.constructor | Assets/Scripts/Player/PlayerMagicQueue.cs:11-15 | The serialized defaults are Glass then Plastic |
| MagicQueue.PlayerMagicQueue.Resample | Assets/Scripts/Player/PlayerMagicQueue.cs:23 | The do-while loop returns the first acceptable draw |
| MagicQueue.PlayerMagicQueue.Start | Assets/Scripts/Player/PlayerMagicQueue.cs:19-25 | current is drawn and next is resampled against it; with the no-repeat rule next differs from current; one Changed carries the new pair |
| MagicQueue.PlayerMagicQueue.ConsumeAndAdvance | Assets/Scripts/Player/PlayerMagicQueue.cs:28-35 | The new current is the old next, and the new next is resampled against it; with the no-repeat rule they differ; one Changed carries the new pair |
| MagicQueue.PlayerMagicQueue.RaiseChanged | Assets/Scripts/Player/PlayerMagicQueue.cs:46 | The event carries the current pair |
| Score.RoundHalfEven | Assets/Scripts/Score/ScoreController.cs:25 | The result lies within 0.5 of x, and a tie goes to the even integer |
| Score.RoundExact | Assets/Scripts/Score/ScoreController.cs:25 | Rounding a whole number gives it back |
| Score.Gain | Assets/Scripts/Score/ScoreController.cs:25 | The points for positive base points are non-negative and lie within 0.5 of n * max(0.1, multiplier) |
| Score.GainExact | Assets/Scripts/Score/ScoreController.cs:25 | A whole product is added exactly |
| Score.GainTenAtDouble | Assets/Scripts/Score/ScoreController.cs:25 | 10 base points at multiplier 2 add exactly 20 |
| Score.ScoreController.constructor | Assets/Scripts/Score/ScoreController.cs:13-14 | The serialized starting score and multiplier |
| Score.ScoreController.AddBasePoints | Assets/Scripts/Score/ScoreController.cs:22-27 | n <= 0 changes nothing. Otherwise the score grows by Gain(n, multiplier) and never decreases. The multiplier is unchanged |
| Score.ScoreController.SetMultiplier | Assets/Scripts/Score/ScoreController.cs:29-33 | Stores max(0.1, m), and the score is untouched |
| Score.ScoreController.ResetScore | Assets/Scripts/Score/ScoreController.cs:35-40 | The score is max(0, start) and the multiplier is max(0.1, startMult) |
| Life.LifeController.StartingLives | Assets/Scripts/System/LifeController.cs:25 | The clamped start lives lie in [0, maxLives] and equal startLives when it is already in range |
| Life.LifeController.constructor | Assets/Scripts/System/LifeController.cs:22-28 | After Awake game over is cleared, lives are the clamped start, every heart shows the lives, and the panel is hidden |
| Life.LifeController.ApplyHearts | Assets/Scripts/System/LifeController.cs:52-63 | Every present heart at index i is full exactly when i < lives; missing images stay missing |
| Life.LifeController.HandleMissedTrash | Assets/Scripts/System/LifeController.cs:41-50 | After game over nothing changes. Otherwise lives become max(0, lives - 1), and game over latches exactly when lives reach 0, stopping time and showing the panel. The lives and hearts invariant is kept, and the result is one step of LivesAfterMisses. After game over the hearts are unchanged, and a missing heart image stays missing |
| Life.LifeController.TriggerGameOver | Assets/Scripts/System/LifeController.cs:65-72 | Game over is set, the time scale is 0, and the panel is shown when there is one |
| Life.LifeController.ResetLives | Assets/Scripts/System/LifeController.cs:74-81 | Restores the clamped start lives with matching hearts, clears game over, resumes time, and hides the panel. A missing heart image stays missing |
| Life.LivesAfterMisses | Assets/Scripts/System/LifeController.cs:41-50 | Starting from n lives, k misses leave max(0, n - k) lives, never below 0 or above n |
| Life.MissesCompose | Assets/Scripts/System/LifeController.cs:41-50 | j misses followed by k misses leave as many lives as j + k misses, so k successive calls of HandleMissedTrash leave LivesAfterMisses(n, k) |
| Shooter.Aim | Assets/Scripts/Player/UIPlayerShooter.cs:63-64 | The aim either has a squared length of at least 0.0001 or is up; a long-enough aim points exactly from the spawn point to the mouse |
| Shooter.UIPlayerShooter.constructor | Assets/Scripts/Player/UIPlayerShooter.cs:16-19 | The cooldown starts at 0 |
| Shooter.UIPlayerShooter.TryShoot | Assets/Scripts/Player/UIPlayerShooter.cs:36-80 | A missing prefab, queue or parent changes nothing. Otherwise the shot carries the queue's current category read before the advance, or none when the prefab lacks a projectile. The queue advances once, also without a projectile, and the cooldown is restarted |
| Shooter.UIPlayerShooter.Update | Assets/Scripts/Player/UIPlayerShooter.cs:27-34 | Paused or game over: nothing changes. Otherwise the cooldown falls by dt, and a shot is attempted only at a cooldown <= 0 with the fire key held. A shot that fires starts at the spawn point, carries the category current before the frame and aims as Aim does. The queue moves its preview up and resamples the preview as the first acceptable draw, so with the no-repeat rule the two differ, and the cooldown restarts |
| Pager.NextIndex | Assets/Scripts/System/HowToPlayPager.cs:29-37 | Next stays in range and moves one forward exactly when the list is non-empty and not at the last page |
| Pager.PrevIndex | Assets/Scripts/System/HowToPlayPager.cs:40-48 | Prev stays in range and moves one back exactly when the list is non-empty and not at the first page |
| Pager.StepsUndo | Assets/Scripts/System/HowToPlayPager.cs:29-48 | Prev undoes a Next that moved, and Next undoes a Prev that moved |
| Pager.NextTimesReachesLast | Assets/Scripts/System/HowToPlayPager.cs:29-37 | Pressing Next enough times from any page reaches the last page and stays there |
| Pager.Page.constructor | Assets/Scripts/System/HowToPlayPager.cs:14 | A page with its active flag |
| Pager.HowToPlayPager.constructor | Assets/Scripts/System/HowToPlayPager.cs:14-20 | The serialized list and settings, with the index at 0 |
| Pager.HowToPlayPager.SetActive | Assets/Scripts/System/HowToPlayPager.cs:75-79 | An out-of-range index or a missing page is ignored; otherwise only that page's flag is set |
| Pager.HowToPlayPager.Show | Assets/Scripts/System/HowToPlayPager.cs:51-58 | With no pages it does nothing. Otherwise the index becomes clamp(i, 0, count - 1), and with distinct pages only that page is active |
| Pager.HowToPlayPager.Next | Assets/Scripts/System/HowToPlayPager.cs:29-37 | The index becomes NextIndex. A step turns the old page off and the new page on, and leaves every other page alone; no step changes nothing |
| Pager.HowToPlayPager.Prev | Assets/Scripts/System/HowToPlayPager.cs:40-48 | The index becomes PrevIndex. A step swaps the active pages as Next does; no step changes nothing |
| Pager.HowToPlayPager.BuildPagesIfNeeded | Assets/Scripts/System/HowToPlayPager.cs:60-73 | An empty list with auto-collect on becomes the children in order; any other list is kept |
| Pager.HowToPlayPager.OnEnable | Assets/Scripts/System/HowToPlayPager.cs:22-26 | An empty list with auto-collect on becomes the children, and any other list is kept. Then the clamped start page is shown, with only that page active when the pages are distinct |

## Left out

- Engine calls are abstracted away:
  - `Instantiate`, `GetWorldCorners`, and screen-to-local coordinate conversion are not modelled.
  - An item's world corners, including the effect of its rotation, come from the `cornersOf` parameter. The play field's corners come from `bounds`.
  - The shooter receives the spawn point and the mouse point already in the projectile layer's space.
  - The projectile's own rectangle is its position plus or minus half its size, so its world corners are not modelled.
- Score.ScoreController.AddBasePoints: C#'s 32-bit `int` score is an unbounded integer here, so the wrap-around of `score += …` on overflow is not modelled. "Never decreases" holds only because of this.
- Score.Gain: the float-to-int conversion of `Mathf.RoundToInt` is unbounded here, so a product beyond the 32-bit range is not modelled.
- Spawner.CapCandidate: `initialMaxConcurrent + FloorToInt(…)` is computed on unbounded integers, so 32-bit overflow of the cap arithmetic is not modelled.
- Projectile.Direction: the vector's length (a square root) is a parameter, so the model does not compute it.
- Sprites, tints, `SetNativeSize`, `TintFor`, `ApplyVisual` and the score text (`Refresh`) are out: they only change what is drawn.
- The projectile's `Awake` lookup of its bounds root by tag or parent is out. The resulting play field is the `bounds` parameter, which is None when no root was found.
- Floats are exact reals. IEEE rounding is not modelled; `Mathf.RoundToInt` is exact round-half-to-even.
- Random draws are caller-supplied fractions, as described above. Their distribution is not modelled.
- Static events and the score singleton are modelled as results and nullable parameters. Delegate subscription (`OnEnable`/`OnDisable` of the life controller) is not modelled.
- Unity destroys an object at the end of the frame. Here destruction, and the unregistration it causes, takes effect at once. The engine never updates an object it has destroyed, which each `Update` states as a precondition.
- Trash.TrashItem.Init: a null sprite is not modelled. The spawner never passes one, since it abandons the spawn first.
- Life.LifeController: a null heart array is not modelled; the array is always present, with `Missing` slots for absent images. When the game-over panel does not exist, `panelActive` has no meaning.
- Pager.HowToPlayPager.Show: "only the shown page is active" is proved for a list without repeated page objects. A list in which the same object appears twice can end with that object inactive.
- Shooter.UIPlayerShooter.TryShoot: a player object without a RectTransform, which spawns at the layer origin, is not modelled. The projectile instance itself is not modelled either. The shot records its start point, its category and the raw aim that `SetDirection` receives.
