/**
 * The player sprite (src/player.ts): its hearts and damage window, the space
 * key's speed boost, and the per-frame acceleration from the cursor keys.
 * The fields that power-ups write but player.ts does not declare (oxygen,
 * MAX_STAMINA, stamina, hasShield, maxSpeed, maxDivingSpeed) are part of the
 * same record here; their initial values are constructor parameters.
 */
module PlayerSprite {
  import opened Timers

  const INITIAL_HEARTS := 3
  const TINT_MS := 100
  const DEATH_TWEEN_MS := 500
  const DAMAGE_RESET_MS := 1000
  const ACCELERATION := 320
  const BASE_MAX_SPEED := 128
  const BOOST_MAX_SPEED := 256
  /** Gravity the body gets once the death tween has finished. */
  const DEAD_GRAVITY_Y := -80

  /** Callbacks the player schedules on the scene clock. */
  datatype PlayerAction = ClearTint | Settle | EndDamage

  datatype PlayerAnim = Swim | Die

  /** The survival record that the power-up effects change. */
  datatype Stats = Stats(
    hearts: int,
    oxygen: int,
    maxStamina: int,
    stamina: int,
    hasShield: bool,
    maxSpeed: int,
    maxDivingSpeed: int,
    sizeLevel: int,   // number of size effects in force: scale = base scale * 1.5^sizeLevel
    gravityY: int)

  class Player {
    var x: int
    var y: int
    var hearts: int
    var takingDamage: bool
    var tinted: bool
    var anim: PlayerAnim
    var oxygen: int
    var maxStamina: int
    var stamina: int
    var hasShield: bool
    var maxSpeed: int
    var maxDivingSpeed: int
    var sizeLevel: int
    var gravityY: int
    /** The physics body's speed cap, set by the space key. */
    var bodyMaxSpeed: int
    var accelX: int
    var accelY: int
    var pending: seq<Task<PlayerAction>>

    function Snapshot(): Stats
      reads this
    {
      Stats(hearts, oxygen, maxStamina, stamina, hasShield, maxSpeed, maxDivingSpeed, sizeLevel, gravityY)
    }

    /**
     * What the scene's overlap handler relies on: a player who is not in a
     * damage window is alive, and a pending reset exists only for a living
     * player who is in the window. Under it, hearts never fall below 0.
     */
    ghost predicate DamageSafe()
      reads this
    {
      && hearts >= 0
      && Count(pending, EndDamage) <= 1
      && (Count(pending, EndDamage) == 1 ==> takingDamage && hearts > 0)
      && (!takingDamage ==> hearts > 0)
    }

    constructor (x0: int, y0: int, oxygen0: int, maxStamina0: int, stamina0: int,
                 hasShield0: bool, maxSpeed0: int, maxDivingSpeed0: int)
      ensures x == x0 && y == y0
      ensures hearts == INITIAL_HEARTS && !takingDamage && !tinted && anim == Swim
      ensures oxygen == oxygen0 && maxStamina == maxStamina0 && stamina == stamina0
      ensures hasShield == hasShield0 && maxSpeed == maxSpeed0 && maxDivingSpeed == maxDivingSpeed0
      ensures sizeLevel == 0 && gravityY == 0
      ensures bodyMaxSpeed == BASE_MAX_SPEED && accelX == 0 && accelY == 0
      ensures pending == []
      ensures DamageSafe()
    {
      x, y := x0, y0;
      hearts := INITIAL_HEARTS;
      takingDamage := false;
      tinted := false;
      anim := Swim;
      oxygen, maxStamina, stamina := oxygen0, maxStamina0, stamina0;
      hasShield, maxSpeed, maxDivingSpeed := hasShield0, maxSpeed0, maxDivingSpeed0;
      sizeLevel, gravityY := 0, 0;
      bodyMaxSpeed := BASE_MAX_SPEED;
      accelX, accelY := 0, 0;
      pending := [];
    }

    /** Space pressed: the speed cap is raised only for a living player. */
    method SpaceDown()
      modifies this`bodyMaxSpeed
      ensures bodyMaxSpeed == if hearts > 0 then BOOST_MAX_SPEED else old(bodyMaxSpeed)
    {
      if hearts > 0 {
        bodyMaxSpeed := BOOST_MAX_SPEED;
      }
    }

    /** Space released: the base speed cap comes back, dead or alive. */
    method SpaceUp()
      modifies this`bodyMaxSpeed
      ensures bodyMaxSpeed == BASE_MAX_SPEED
    {
      bodyMaxSpeed := BASE_MAX_SPEED;
    }

    /**
     * A hit: one heart less and a damage window, with no guard of its own.
     * A survivor gets exactly one reset of the window 1000 ms later; a hit
     * that leaves no hearts schedules the death tween and no reset.
     */
    method TakeDamage(now: int)
      modifies this`hearts, this`takingDamage, this`tinted, this`anim, this`pending
      ensures hearts == old(hearts) - 1
      ensures takingDamage && tinted
      ensures anim == if hearts <= 0 then Die else old(anim)
      ensures pending == old(pending) + [Task(now + TINT_MS, ClearTint)] +
        (if hearts <= 0 then [Task(now + DEATH_TWEEN_MS, Settle)] else [Task(now + DAMAGE_RESET_MS, EndDamage)])
      ensures Count(pending, EndDamage) == Count(old(pending), EndDamage) + (if hearts > 0 then 1 else 0)
    {
      hearts := hearts - 1;
      takingDamage := true;
      tinted := true;
      CountSchedule(pending, Task(now + TINT_MS, ClearTint), EndDamage);
      pending := pending + [Task(now + TINT_MS, ClearTint)];

      if hearts <= 0 {
        anim := Die;
        CountSchedule(pending, Task(now + DEATH_TWEEN_MS, Settle), EndDamage);
        pending := pending + [Task(now + DEATH_TWEEN_MS, Settle)];
        return;
      }

      CountSchedule(pending, Task(now + DAMAGE_RESET_MS, EndDamage), EndDamage);
      pending := pending + [Task(now + DAMAGE_RESET_MS, EndDamage)];
    }

    /**
     * The acceleration part of a frame: reset to (0, 0), nothing more for a
     * dead player; otherwise each held key sets its axis, and when both keys
     * of an axis are held the later assignment (right, down) wins.
     */
    method PreUpdate(left: bool, right: bool, up: bool, down: bool)
      modifies this`accelX, this`accelY
      ensures hearts <= 0 ==> accelX == 0 && accelY == 0
      ensures hearts > 0 ==> (accelX > 0 <==> right) && (accelX < 0 <==> left && !right)
      ensures hearts > 0 ==> (accelY > 0 <==> down) && (accelY < 0 <==> up && !down)
      ensures accelX == 0 || accelX == ACCELERATION || accelX == -ACCELERATION
      ensures accelY == 0 || accelY == ACCELERATION || accelY == -ACCELERATION
    {
      accelX, accelY := 0, 0;

      if hearts <= 0 {
        return;
      }

      if left {
        accelX := -ACCELERATION;
      }
      if right {
        accelX := ACCELERATION;
      }
      if up {
        accelY := -ACCELERATION;
      }
      if down {
        accelY := ACCELERATION;
      }
    }

    /** The 100 ms red tint ends. */
    method FireClearTint(k: nat, now: int)
      requires k < |pending| && pending[k].action == ClearTint && pending[k].dueAt <= now
      modifies this`tinted, this`pending
      ensures !tinted
      ensures pending == RemoveAt(old(pending), k)
      ensures old(DamageSafe()) ==> DamageSafe()
    {
      CountFire(pending, k, EndDamage);
      tinted := false;
      pending := RemoveAt(pending, k);
    }

    /** The death tween completes: the body floats up. */
    method FireSettle(k: nat, now: int)
      requires k < |pending| && pending[k].action == Settle && pending[k].dueAt <= now
      modifies this`gravityY, this`pending
      ensures gravityY == DEAD_GRAVITY_Y
      ensures pending == RemoveAt(old(pending), k)
      ensures old(DamageSafe()) ==> DamageSafe()
    {
      CountFire(pending, k, EndDamage);
      gravityY := DEAD_GRAVITY_Y;
      pending := RemoveAt(pending, k);
    }

    /** The damage window closes 1000 ms after a survived hit. */
    method FireEndDamage(k: nat, now: int)
      requires k < |pending| && pending[k].action == EndDamage && pending[k].dueAt <= now
      modifies this`takingDamage, this`pending
      ensures !takingDamage
      ensures pending == RemoveAt(old(pending), k)
      ensures Count(pending, EndDamage) == Count(old(pending), EndDamage) - 1
      ensures old(DamageSafe()) ==> DamageSafe() && hearts > 0
    {
      CountFire(pending, k, EndDamage);
      takingDamage := false;
      pending := RemoveAt(pending, k);
    }
  }

  /**
   * takeDamage has no guard: four direct hits on a new player leave -1 hearts,
   * and the player is still marked as taking damage.
   */
  method DirectHitsGoNegative() returns (h: int, stillHit: bool)
    ensures h == -1 && stillHit
  {
    var p := new Player(150, 500, 0, 100, 100, false, 0, 0);
    p.TakeDamage(0);
    p.TakeDamage(10);
    p.TakeDamage(20);
    p.TakeDamage(30);
    h, stillHit := p.hearts, p.takingDamage;
  }

  /**
   * Direct hits inside the window: the reset left by an earlier survived
   * hit still fires after the killing hit, so the dead player leaves the
   * damage window with 0 hearts.
   */
  method LateResetAfterDeath() returns (h: int, stillHit: bool)
    ensures h == 0 && !stillHit
  {
    var p := new Player(150, 500, 0, 100, 100, false, 0, 0);
    p.TakeDamage(0);
    p.TakeDamage(10);
    p.TakeDamage(20);
    assert p.pending[1] == Task(DAMAGE_RESET_MS, EndDamage);
    p.FireEndDamage(1, 1000);
    h, stillHit := p.hearts, p.takingDamage;
  }

  /**
   * Hits spaced by the reset: each survived hit's reset fires before the
   * next hit, and the killing hit schedules none, so the dead player stays
   * in the damage window.
   */
  method DeadInWindow() returns (p: Player)
    ensures fresh(p) && p.hearts == 0 && p.takingDamage
  {
    p := new Player(150, 500, 0, 100, 100, false, 0, 0);
    p.TakeDamage(0);
    p.FireEndDamage(1, 1000);
    p.TakeDamage(1000);
    p.FireEndDamage(2, 2000);
    p.TakeDamage(2000);
  }
}
