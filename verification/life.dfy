/**
 * Lives and game over. Each missed item costs a life while the game is not
 * over; reaching zero latches game over, which freezes time and shows the
 * game-over panel until the lives are reset. The heart images show a full
 * heart at index i exactly when i is below the number of lives.
 */
module Life {
  import opened Types

  /** One heart image slot: a missing image, or an image showing a full or an empty heart. */
  datatype HeartSlot = Missing | Heart(full: bool)

  class LifeController {
    const maxLives: int
    const startLives: int
    const hasPanel: bool
    const hearts: array<HeartSlot>
    var lives: int
    /** The static IsGameOver flag. */
    var isGameOver: bool
    /** Time.timeScale. */
    var timeScale: real
    var panelActive: bool

    /** Every present heart image shows the current number of lives. */
    ghost predicate HeartsShowLives()
      reads this, hearts
    {
      forall i :: 0 <= i < hearts.Length && hearts[i].Heart? ==> hearts[i].full == (i < lives)
    }

    ghost predicate Valid()
      reads this, hearts
    {
      0 <= lives <= maxLives && (isGameOver ==> lives == 0) && HeartsShowLives()
    }

    /** The clamped starting lives. */
    function StartingLives(): (n: int)
      reads this
      requires maxLives >= 0
      ensures 0 <= n <= maxLives
      ensures 0 <= startLives <= maxLives ==> n == startLives
    {
      ClampInt(startLives, 0, maxLives)
    }

    /** Creation and Awake: game over cleared, lives at the clamped start, hearts drawn, panel hidden. */
    constructor (maxLives: int, startLives: int, hearts: array<HeartSlot>, hasPanel: bool, timeScale: real)
      requires maxLives >= 0
      modifies hearts
      ensures this.maxLives == maxLives && this.startLives == startLives && this.hearts == hearts
      ensures this.hasPanel == hasPanel && this.timeScale == timeScale
      ensures Valid()
      ensures !isGameOver && lives == StartingLives() && !panelActive
      ensures forall i :: 0 <= i < hearts.Length ==> hearts[i].Missing? == old(hearts[i]).Missing?
    {
      this.maxLives, this.startLives, this.hearts, this.hasPanel := maxLives, startLives, hearts, hasPanel;
      this.timeScale := timeScale;
      isGameOver := false;
      lives := ClampInt(startLives, 0, maxLives);
      panelActive := false;
      new;
      ApplyHearts();
    }

    /** Redraws every present heart: full below the number of lives, empty from there on. */
    method ApplyHearts()
      modifies hearts
      ensures HeartsShowLives()
      ensures forall i :: 0 <= i < hearts.Length ==> hearts[i].Missing? == old(hearts[i]).Missing?
    {
      var i := 0;
      while i < hearts.Length
        invariant 0 <= i <= hearts.Length
        invariant forall j :: 0 <= j < i && hearts[j].Heart? ==> hearts[j].full == (j < lives)
        invariant forall j :: 0 <= j < hearts.Length ==> hearts[j].Missing? == old(hearts[j]).Missing?
      {
        if hearts[i].Heart? {
          hearts[i] := Heart(i < lives);
        }
        i := i + 1;
      }
    }

    /** The missed-item signal: one life fewer, and game over when none are left. */
    method HandleMissedTrash()
      requires Valid()
      modifies this, hearts
      ensures Valid()
      ensures old(isGameOver) ==> lives == old(lives) && isGameOver && timeScale == old(timeScale) &&
                                  panelActive == old(panelActive)
      ensures !old(isGameOver) ==> lives == MaxInt(0, old(lives) - 1) && (isGameOver <==> lives <= 0)
      ensures !old(isGameOver) && isGameOver ==> timeScale == 0.0 && panelActive == (hasPanel || old(panelActive))
      ensures !old(isGameOver) && !isGameOver ==> timeScale == old(timeScale) && panelActive == old(panelActive)
      ensures old(isGameOver) ==> hearts[..] == old(hearts[..])
      ensures forall i :: 0 <= i < hearts.Length ==> hearts[i].Missing? == old(hearts[i]).Missing?
      ensures lives == LivesAfterMisses(old(lives), 1)
    {
      if isGameOver {
        return;
      }
      lives := MaxInt(0, lives - 1);
      ApplyHearts();
      if lives <= 0 {
        TriggerGameOver();
      }
    }

    method TriggerGameOver()
      modifies this`isGameOver, this`timeScale, this`panelActive
      ensures isGameOver && timeScale == 0.0
      ensures panelActive == (hasPanel || old(panelActive))
    {
      isGameOver := true;
      timeScale := 0.0;
      if hasPanel {
        panelActive := true;
      }
    }

    /** A new round: the clamped start lives, hearts redrawn, panel hidden, game over cleared, time resumed. */
    method ResetLives()
      requires maxLives >= 0
      modifies this, hearts
      ensures Valid()
      ensures lives == StartingLives() && !isGameOver && timeScale == 1.0
      ensures panelActive == (old(panelActive) && !hasPanel)
      ensures forall i :: 0 <= i < hearts.Length ==> hearts[i].Missing? == old(hearts[i]).Missing?
    {
      lives := ClampInt(startLives, 0, maxLives);
      ApplyHearts();
      if hasPanel {
        panelActive := false;
      }
      isGameOver := false;
      timeScale := 1.0;
    }
  }

  /** The number of lives after a run of misses starting from n lives, not yet over. */
  function LivesAfterMisses(n: int, misses: nat): (r: int)
    requires n >= 0
    ensures 0 <= r <= n
    ensures misses >= n ==> r == 0
    ensures misses < n ==> r == n - misses
  {
    if misses == 0 then n else LivesAfterMisses(MaxInt(0, n - 1), misses - 1)
  }

  /**
   * Misses compose: j misses followed by k more leave the lives that j + k
   * misses leave, so k successive HandleMissedTrash calls, each ensuring
   * one step of LivesAfterMisses, take n lives to LivesAfterMisses(n, k).
   */
  lemma MissesCompose(n: int, j: nat, k: nat)
    requires n >= 0
    ensures LivesAfterMisses(LivesAfterMisses(n, j), k) == LivesAfterMisses(n, j + k)
  {
  }

}
