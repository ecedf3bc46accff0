/**
 * The level scene (src/scenes/Game.ts): where the player spawns, the frames
 * of the placeholder power-up sprites, and the two overlap handlers that
 * connect the player with the fish and with the power-ups.
 */
module GameScene {
  import opened Wrappers
  import opened Timers
  import opened Tiled
  import opened PlayerSprite
  import opened FishSprite
  import PowerUpSprite

  const SPAWN_X := 150
  const SPAWN_Y := 500
  const PLACEHOLDER_REGEN_MS := 30000
  /** Placeholder frames are drawn from 0..20 of the power-up sheet. */
  const PLACEHOLDER_FRAMES := 20
  const POWERUP_LIFT := 16

  /** JavaScript's Math.round: the nearest integer, halves rounded up. */
  function Round(v: real): int
  {
    (v + 0.5).Floor
  }

  /** The placeholder frame for a draw in [0, 1): twenty times the draw, rounded; a frame in 0..20. */
  function PowerupFrame(draw: real): (idx: int)
    requires 0.0 <= draw < 1.0
    ensures 0 <= idx <= PLACEHOLDER_FRAMES
    ensures idx as real - 0.5 <= draw * PLACEHOLDER_FRAMES as real < idx as real + 0.5
  {
    Round(draw * PLACEHOLDER_FRAMES as real)
  }

  /** Position of the first object with the given name, or |objs| if there is none. */
  function FindNamed(objs: seq<TiledObject>, name: string): (i: nat)
    ensures i <= |objs|
    ensures forall j :: 0 <= j < i ==> objs[j].name != name
    ensures i < |objs| ==> objs[i].name == name
  {
    if objs == [] then 0
    else if objs[0].name == name then 0
    else 1 + FindNamed(objs[1..], name)
  }

  /**
   * The player's spawn point: the first object named "player" in the
   * player-position layer, each missing coordinate (and a missing layer or
   * object) falling back to (150, 500).
   */
  function SpawnPoint(layer: Option<seq<TiledObject>>): (p: (int, int))
    ensures layer.None? ==> p == (SPAWN_X, SPAWN_Y)
    ensures layer.Some? && (forall j :: 0 <= j < |layer.value| ==> layer.value[j].name != "player") ==>
      p == (SPAWN_X, SPAWN_Y)
    ensures layer.Some? && FindNamed(layer.value, "player") < |layer.value| ==>
      var o := layer.value[FindNamed(layer.value, "player")];
      p == (o.x.GetOr(SPAWN_X), o.y.GetOr(SPAWN_Y))
  {
    var objs := layer.GetOr([]);
    var i := FindNamed(objs, "player");
    if i < |objs| then (objs[i].x.GetOr(SPAWN_X), objs[i].y.GetOr(SPAWN_Y))
    else (SPAWN_X, SPAWN_Y)
  }

  datatype SpriteAction = Revive

  /** A placeholder power-up: a plain sprite with no effect of its own. */
  class PowerupSprite {
    const x: int
    const y: int
    var frame: int
    var active: bool
    var displayed: bool
    var updating: bool
    var pending: seq<Task<SpriteAction>>

    /** One revival is pending exactly while the sprite is inactive. */
    ghost predicate Valid()
      reads this
    {
      Count(pending, Revive) == if active then 0 else 1
    }

    constructor (objX: int, objY: int, draw: real)
      requires 0.0 <= draw < 1.0
      ensures x == objX && y == objY - POWERUP_LIFT
      ensures frame == PowerupFrame(draw) && 0 <= frame <= PLACEHOLDER_FRAMES
      ensures active && displayed && updating && pending == []
      ensures Valid()
    {
      x, y := objX, objY - POWERUP_LIFT;
      frame := PowerupFrame(draw);
      active, displayed, updating := true, true, true;
      pending := [];
    }

    /** 30 s after a pick-up the sprite is back, with the frame it had. */
    method FireRevive(k: nat, now: int)
      requires k < |pending| && pending[k].action == Revive && pending[k].dueAt <= now
      modifies this`active, this`displayed, this`updating, this`pending
      ensures active && displayed && updating && frame == old(frame)
      ensures pending == RemoveAt(old(pending), k)
      ensures old(Valid()) ==> Valid()
    {
      CountFire(pending, k, Revive);
      active, displayed, updating := true, true, true;
      pending := RemoveAt(pending, k);
    }
  }

  /**
   * The player overlaps a fish. While the player is in a damage window
   * nothing happens. Otherwise the fish's patrol pauses until its attack
   * animation ends and the player takes exactly one hit. Under the
   * player's damage invariant, hearts never fall below 0 and a dead
   * player is not hit again.
   */
  method OnFishOverlap(player: Player, fish: Fish, now: int)
    modifies player`hearts, player`takingDamage, player`tinted, player`anim, player`pending
    modifies fish`anim, fish`paused, fish`pending
    ensures old(player.takingDamage) ==> unchanged(player) && unchanged(fish)
    ensures !old(player.takingDamage) ==>
      && player.hearts == old(player.hearts) - 1 && player.takingDamage && player.tinted
      && player.anim == (if player.hearts <= 0 then Die else old(player.anim))
      && player.pending == old(player.pending) + [Task(now + TINT_MS, ClearTint)] +
           (if player.hearts <= 0 then [Task(now + DEATH_TWEEN_MS, Settle)] else [Task(now + DAMAGE_RESET_MS, EndDamage)])
      && fish.paused && fish.anim == AttackAnim
      && fish.pending == old(fish.pending) + [Task(now + ATTACK_MS, ResumePatrol)]
    ensures old(player.DamageSafe()) ==> player.DamageSafe() && player.hearts >= 0
    ensures old(player.DamageSafe()) && old(player.hearts) <= 0 ==> unchanged(player) && unchanged(fish)
  {
    if player.takingDamage {
      return;
    }

    fish.Attack(now);
    player.TakeDamage(now);
  }

  /**
   * The player overlaps a placeholder power-up: an inactive one is
   * ignored; an active one is switched off and hidden, with one revival
   * 30 s later and its frame unchanged.
   */
  method OnPowerupOverlap(sprite: PowerupSprite, now: int)
    modifies sprite`active, sprite`displayed, sprite`updating, sprite`pending
    ensures !old(sprite.active) ==> unchanged(sprite)
    ensures old(sprite.active) ==>
      && !sprite.active && !sprite.displayed && !sprite.updating
      && sprite.pending == old(sprite.pending) + [Task(now + PLACEHOLDER_REGEN_MS, Revive)]
    ensures sprite.frame == old(sprite.frame)
    ensures old(sprite.Valid()) ==> sprite.Valid()
  {
    if !sprite.active {
      return;
    }

    sprite.active := false;
    sprite.displayed := false;
    sprite.updating := false;

    CountSchedule(sprite.pending, Task(now + PLACEHOLDER_REGEN_MS, Revive), Revive);
    sprite.pending := sprite.pending + [Task(now + PLACEHOLDER_REGEN_MS, Revive)];
  }

  /**
   * Death is not final: a player dead inside the damage window (as
   * `DeadInWindow` leaves one) gets a heart back from a health power-up,
   * but the window never closes again, so a fish's touch no longer hurts.
   */
  method RevivedPlayerIsNeverHit(player: Player, p: PowerUpSprite.PowerUp, fish: Fish, now: int)
    requires player.hearts == 0 && player.takingDamage
    requires p.active && !p.randomizing && PowerUpSprite.KindOf(p.effect) == Some(PowerUpSprite.Health)
    modifies player, p, fish
    ensures player.hearts == 1 && player.takingDamage
    ensures unchanged(fish)
  {
    var used := p.Use(player, now);
    OnFishOverlap(player, fish, now);
  }
}
