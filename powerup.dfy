/**
 * Power-ups (src/powerup.ts): the effect list, the `use` guard, the
 * reactivation after a cooldown, the gamble of the 'random' kind, and the
 * effect handlers that change the player's record.
 */
module PowerUpSprite {
  import opened Wrappers
  import opened Timers
  import opened PlayerSprite

  /** Effect names; an effect's position is its frame in the power-up sheet. */
  const EFFECTS: seq<string> :=
    ["oxygen", "random", "health", "stamina", "shield", "speed", "size", "pull-down"]

  const REGENERATION_MS := 30000
  const EFFECT_DURATION_MS := 7500
  const SPIN_MS := 2000
  const UNLOCK_MS := 500
  /** The gamble wins when its draw is below this. */
  const WIN_BELOW: real := 0.8
  const STAMINA_STEP := 20
  const SPEED_STEP := 16
  const DIVING_SPEED_STEP := 24
  const PULL_DOWN_GRAVITY := 250

  /** The handlers of applyEffect's table, in the order of EFFECTS. */
  datatype Kind = Oxygen | Random | Health | Stamina | Shield | Speed | Size | PullDown

  /** Callbacks a power-up schedules on the scene clock. */
  datatype PowerUpAction = Reactivate | ResolveGamble | EndGamble | Shrink | RestoreGravity

  datatype UseOutcome =
    | Ignored    // inactive or mid-gamble: nothing happens
    | NoHandler  // the effect name has no handler: the dispatch throws
    | Spun       // the 'random' kind started its gamble
    | Consumed   // the effect was applied and the power-up removed

  /** Array.prototype.indexOf: the first position of `e`, or -1. */
  function IndexOf(s: seq<string>, e: string): (r: int)
    ensures -1 <= r < |s|
    ensures r == -1 <==> e !in s
    ensures 0 <= r ==> s[r] == e && forall j :: 0 <= j < r ==> s[j] != e
  {
    if s == [] then -1
    else if s[0] == e then 0
    else
      var i := IndexOf(s[1..], e);
      if i == -1 then -1 else i + 1
  }

  lemma EffectsDistinct()
    ensures forall i, j :: 0 <= i < j < |EFFECTS| ==> EFFECTS[i] != EFFECTS[j]
  {
  }

  /** Every listed effect's frame is its own position, so looking it up again gives it back. */
  lemma EffectIndexRoundTrip(i: nat)
    requires i < |EFFECTS|
    ensures IndexOf(EFFECTS, EFFECTS[i]) == i
  {
    EffectsDistinct();
  }

  /** The frame the lost gamble shows again. */
  lemma RandomFrame()
    ensures IndexOf(EFFECTS, "random") == KindIndex(Random)
  {
  }

  function KindIndex(k: Kind): (i: nat)
    ensures i < |EFFECTS|
  {
    match k
    case Oxygen => 0
    case Random => 1
    case Health => 2
    case Stamina => 3
    case Shield => 4
    case Speed => 5
    case Size => 6
    case PullDown => 7
  }

  /** The handler `effectMap[name]`, if the table has one. */
  function KindOf(name: string): (k: Option<Kind>)
    ensures k.Some? <==> name in EFFECTS
    ensures k.Some? ==> EFFECTS[KindIndex(k.value)] == name
  {
    if name == "oxygen" then Some(Oxygen)
    else if name == "random" then Some(Random)
    else if name == "health" then Some(Health)
    else if name == "stamina" then Some(Stamina)
    else if name == "shield" then Some(Shield)
    else if name == "speed" then Some(Speed)
    else if name == "size" then Some(Size)
    else if name == "pull-down" then Some(PullDown)
    else None
  }

  /** The name at each position has the handler of that position. */
  lemma KindOfEffect(i: nat)
    requires i < |EFFECTS|
    ensures KindOf(EFFECTS[i]).Some? && KindIndex(KindOf(EFFECTS[i]).value) == i
  {
    EffectsDistinct();
  }

  /** The position a draw in [0, 1) picks: the draw scaled to the list's length, rounded down. */
  function PickIndex(draw: real): (i: nat)
    requires 0.0 <= draw < 1.0
    ensures i < |EFFECTS|
    ensures i as real <= draw * |EFFECTS| as real < i as real + 1.0
  {
    (draw * |EFFECTS| as real).Floor
  }

  /** The fields of the player record, for stating what a handler leaves alone. */
  datatype Field = Hearts | OxygenLevel | MaxStamina | StaminaLevel | HasShield
                 | MaxSpeed | MaxDivingSpeed | SizeLevel | GravityY

  function FieldValue(s: Stats, f: Field): int
  {
    match f
    case Hearts => s.hearts
    case OxygenLevel => s.oxygen
    case MaxStamina => s.maxStamina
    case StaminaLevel => s.stamina
    case HasShield => if s.hasShield then 1 else 0
    case MaxSpeed => s.maxSpeed
    case MaxDivingSpeed => s.maxDivingSpeed
    case SizeLevel => s.sizeLevel
    case GravityY => s.gravityY
  }

  /** The fields each handler names. */
  function Touched(k: Kind): set<Field>
  {
    match k
    case Oxygen => {OxygenLevel}
    case Random => {}
    case Health => {Hearts}
    case Stamina => {MaxStamina, StaminaLevel}
    case Shield => {HasShield}
    case Speed => {MaxSpeed, MaxDivingSpeed}
    case Size => {SizeLevel}
    case PullDown => {GravityY}
  }

  /**
   * The immediate change a handler makes to the player record. It touches
   * only the fields the handler names, and the stamina handler keeps
   * stamina within its (raised) maximum.
   */
  function Boost(k: Kind, s: Stats): (r: Stats)
    ensures forall f :: f !in Touched(k) ==> FieldValue(r, f) == FieldValue(s, f)
    ensures s.stamina <= s.maxStamina ==> r.stamina <= r.maxStamina
    ensures k == Stamina ==> r.stamina == r.maxStamina
  {
    match k
    case Oxygen => s.(oxygen := s.oxygen + 1)
    case Random => s
    case Health => s.(hearts := s.hearts + 1)
    case Stamina => s.(maxStamina := s.maxStamina + STAMINA_STEP, stamina := s.maxStamina + STAMINA_STEP)
    case Shield => s.(hasShield := true)
    case Speed => s.(maxSpeed := s.maxSpeed + SPEED_STEP, maxDivingSpeed := s.maxDivingSpeed + DIVING_SPEED_STEP)
    case Size => s.(sizeLevel := s.sizeLevel + 1)
    case PullDown => s.(gravityY := PULL_DOWN_GRAVITY)
  }

  /** The callbacks a handler schedules when it runs at time `now`. */
  function Scheduled(k: Kind, now: int): (q: seq<Task<PowerUpAction>>)
    ensures Count(q, Reactivate) == 0 && Count(q, EndGamble) == 0
    ensures Count(q, ResolveGamble) == (if k == Random then 1 else 0)
  {
    match k
    case Random => [Task(now + SPIN_MS, ResolveGamble)]
    case Size => [Task(now + EFFECT_DURATION_MS, Shrink)]
    case PullDown => [Task(now + EFFECT_DURATION_MS, RestoreGravity)]
    case _ => []
  }

  /** A size effect and its reversal leave the record as it was. */
  lemma SizeRoundTrip(s: Stats)
    ensures Boost(Size, s).(sizeLevel := Boost(Size, s).sizeLevel - 1) == s
  {
  }

  class PowerUp {
    var active: bool
    var visible: bool
    var iconVisible: bool
    /** Oxygen bubbles destroy their icon frame. */
    var hasIcon: bool
    var randomizing: bool
    /** The 'random' spin animation is playing. */
    var spinning: bool
    var effect: string
    var frame: int
    var pending: seq<Task<PowerUpAction>>

    /**
     * Exactly one reactivation is pending while the power-up is inactive and
     * none while it is active; exactly one step of the gamble is pending
     * while it is randomizing, and a randomizing power-up is active.
     */
    ghost predicate Valid()
      reads this
    {
      && Count(pending, Reactivate) == (if active then 0 else 1)
      && Count(pending, ResolveGamble) + Count(pending, EndGamble) == (if randomizing then 1 else 0)
      && (randomizing ==> active)
    }

    constructor (effect0: string)
      ensures active && visible && iconVisible && hasIcon && !randomizing && !spinning
      ensures effect == effect0 && frame == IndexOf(EFFECTS, effect0)
      ensures pending == []
      ensures Valid()
    {
      active, visible, iconVisible, hasIcon := true, true, true, true;
      randomizing, spinning := false, false;
      pending := [];
      effect := effect0;
      frame := IndexOf(EFFECTS, effect0);
    }

    /** An oxygen bubble: an oxygen power-up without its icon frame. */
    static method CreateOxygen() returns (p: PowerUp)
      ensures fresh(p)
      ensures p.effect == "oxygen" && p.frame == 0 && !p.hasIcon
      ensures p.active && p.visible && p.iconVisible && !p.randomizing && !p.spinning
      ensures p.pending == [] && p.Valid()
    {
      p := new PowerUp("oxygen");
      p.hasIcon := false;
    }

    /** Set the effect and show the frame at its position in EFFECTS. */
    method SetEffect(name: string)
      modifies this`effect, this`frame
      ensures effect == name && frame == IndexOf(EFFECTS, name)
      ensures name in EFFECTS ==> 0 <= frame && EFFECTS[frame] == name
      ensures name !in EFFECTS ==> frame == -1
    {
      effect := name;
      frame := IndexOf(EFFECTS, name);
    }

    /** Deactivate, hide, and schedule one reactivation 30000 ms later. */
    method Remove(now: int)
      modifies this`active, this`visible, this`iconVisible, this`pending
      ensures !active && !visible && !iconVisible
      ensures pending == old(pending) + [Task(now + REGENERATION_MS, Reactivate)]
      ensures Count(pending, Reactivate) == Count(old(pending), Reactivate) + 1
      ensures Count(pending, ResolveGamble) == Count(old(pending), ResolveGamble)
      ensures Count(pending, EndGamble) == Count(old(pending), EndGamble)
      ensures Count(pending, Shrink) == Count(old(pending), Shrink)
      ensures Count(pending, RestoreGravity) == Count(old(pending), RestoreGravity)
    {
      active, visible, iconVisible := false, false, false;
      var t := Task(now + REGENERATION_MS, Reactivate);
      CountSchedule(pending, t, Reactivate);
      CountSchedule(pending, t, ResolveGamble);
      CountSchedule(pending, t, EndGamble);
      CountSchedule(pending, t, Shrink);
      CountSchedule(pending, t, RestoreGravity);
      pending := pending + [Task(now + REGENERATION_MS, Reactivate)];
    }

    /**
     * Run the handler of the current effect on the player. An effect with
     * no handler makes the dispatch throw before anything changes.
     */
    method ApplyEffect(player: Player, now: int) returns (ok: bool)
      modifies this`randomizing, this`spinning, this`pending
      modifies player`hearts, player`oxygen, player`maxStamina, player`stamina, player`hasShield
      modifies player`maxSpeed, player`maxDivingSpeed, player`sizeLevel, player`gravityY
      ensures ok <==> KindOf(effect).Some?
      ensures !ok ==> unchanged(this) && unchanged(player)
      ensures ok ==> player.Snapshot() == Boost(KindOf(effect).value, old(player.Snapshot()))
      ensures ok ==> pending == old(pending) + Scheduled(KindOf(effect).value, now)
      ensures ok ==> randomizing == (old(randomizing) || KindOf(effect).value == Random)
      ensures ok ==> spinning == (old(spinning) || KindOf(effect).value == Random)
    {
      var kind := KindOf(effect);
      if kind.None? {
        return false;
      }
      ok := true;
      match kind.value
      case Oxygen =>
        player.oxygen := player.oxygen + 1;
      case Random =>
        randomizing := true;
        spinning := true;
        pending := pending + [Task(now + SPIN_MS, ResolveGamble)];
      case Health =>
        player.hearts := player.hearts + 1;
      case Stamina =>
        player.maxStamina := player.maxStamina + STAMINA_STEP;
        player.stamina := player.maxStamina;
      case Shield =>
        player.hasShield := true;
      case Speed =>
        player.maxSpeed := player.maxSpeed + SPEED_STEP;
        player.maxDivingSpeed := player.maxDivingSpeed + DIVING_SPEED_STEP;
      case Size =>
        player.sizeLevel := player.sizeLevel + 1;
        pending := pending + [Task(now + EFFECT_DURATION_MS, Shrink)];
      case PullDown =>
        player.gravityY := PULL_DOWN_GRAVITY;
        pending := pending + [Task(now + EFFECT_DURATION_MS, RestoreGravity)];
    }

    /**
     * Touching the power-up. Inactive or randomizing: nothing at all. The
     * 'random' kind starts its gamble and stays active, with no
     * reactivation scheduled. Any other kind is applied once, after which
     * the power-up is inactive and hidden with one reactivation pending.
     */
    method Use(player: Player, now: int) returns (r: UseOutcome)
      modifies this`active, this`visible, this`iconVisible, this`randomizing, this`spinning, this`pending
      modifies player`hearts, player`oxygen, player`maxStamina, player`stamina, player`hasShield
      modifies player`maxSpeed, player`maxDivingSpeed, player`sizeLevel, player`gravityY
      ensures !old(active) || old(randomizing) ==> r == Ignored && unchanged(this) && unchanged(player)
      ensures old(active) && !old(randomizing) && KindOf(effect).None? ==>
        r == NoHandler && unchanged(this) && unchanged(player)
      ensures old(active) && !old(randomizing) && KindOf(effect) == Some(Random) ==>
        && r == Spun && active && randomizing && spinning && visible == old(visible)
        && iconVisible == old(iconVisible)
        && pending == old(pending) + [Task(now + SPIN_MS, ResolveGamble)]
        && Count(pending, Reactivate) == Count(old(pending), Reactivate)
        && unchanged(player)
      ensures old(active) && !old(randomizing) && KindOf(effect).Some? && KindOf(effect).value != Random ==>
        && r == Consumed && !active && !visible && !iconVisible && !randomizing
        && spinning == old(spinning)
        && player.Snapshot() == Boost(KindOf(effect).value, old(player.Snapshot()))
        && pending == old(pending) + Scheduled(KindOf(effect).value, now) + [Task(now + REGENERATION_MS, Reactivate)]
        && Count(pending, Reactivate) == Count(old(pending), Reactivate) + 1
      ensures effect == old(effect) && frame == old(frame)
      ensures old(Valid()) ==> Valid()
      ensures old(player.DamageSafe()) ==> player.DamageSafe()
    {
      if !active || randomizing {
        return Ignored;
      }

      var ok := ApplyEffect(player, now);
      if !ok {
        return NoHandler;
      }
      ghost var kind := KindOf(effect).value;
      ghost var applied := pending;
      forall a ensures Count(applied, a) == Count(old(pending), a) + Count(Scheduled(kind, now), a) {
        CountConcat(old(pending), Scheduled(kind, now), a);
      }

      if !randomizing {
        Remove(now);
        r := Consumed;
      } else {
        r := Spun;
      }
    }

    /** The cooldown ends: a freshly drawn effect, active and shown again. */
    method FireReactivate(k: nat, now: int, draw: real)
      requires k < |pending| && pending[k].action == Reactivate && pending[k].dueAt <= now
      requires 0.0 <= draw < 1.0
      modifies this`effect, this`frame, this`active, this`visible, this`iconVisible, this`pending
      ensures effect == EFFECTS[PickIndex(draw)] && frame == PickIndex(draw)
      ensures KindOf(effect).Some?
      ensures active && visible && iconVisible
      ensures pending == RemoveAt(old(pending), k)
      ensures old(Valid()) ==> Valid()
    {
      CountFire(pending, k, Reactivate);
      CountFire(pending, k, ResolveGamble);
      CountFire(pending, k, EndGamble);
      pending := RemoveAt(pending, k);
      var i := PickIndex(draw);
      effect := EFFECTS[i];
      frame := i;
      active, visible, iconVisible := true, true, true;
    }

    /**
     * The gamble resolves 2000 ms after it started, to one of two outcomes.
     * A win (wheel below 0.8) draws a new effect, keeps the power-up active
     * and unlocks it 500 ms later. A loss removes it, clears randomizing and
     * shows the 'random' frame again.
     */
    method FireResolveGamble(k: nat, now: int, wheel: real, draw: real)
      requires k < |pending| && pending[k].action == ResolveGamble && pending[k].dueAt <= now
      requires 0.0 <= draw < 1.0
      modifies this`effect, this`frame, this`active, this`visible, this`iconVisible
      modifies this`randomizing, this`spinning, this`pending
      ensures !spinning
      ensures wheel < WIN_BELOW ==>
        && effect == EFFECTS[PickIndex(draw)] && frame == PickIndex(draw)
        && active == old(active) && visible == old(visible) && randomizing == old(randomizing)
        && iconVisible == old(iconVisible)
        && pending == RemoveAt(old(pending), k) + [Task(now + UNLOCK_MS, EndGamble)]
      ensures wheel >= WIN_BELOW ==>
        && effect == old(effect) && frame == KindIndex(Random)
        && !active && !visible && !iconVisible && !randomizing
        && pending == RemoveAt(old(pending), k) + [Task(now + REGENERATION_MS, Reactivate)]
      ensures old(Valid()) ==> Valid()
    {
      CountFire(pending, k, Reactivate);
      CountFire(pending, k, ResolveGamble);
      CountFire(pending, k, EndGamble);
      pending := RemoveAt(pending, k);
      spinning := false;

      if wheel < WIN_BELOW {
        var i := PickIndex(draw);
        effect := EFFECTS[i];
        frame := i;
        CountSchedule(pending, Task(now + UNLOCK_MS, EndGamble), Reactivate);
        CountSchedule(pending, Task(now + UNLOCK_MS, EndGamble), ResolveGamble);
        CountSchedule(pending, Task(now + UNLOCK_MS, EndGamble), EndGamble);
        pending := pending + [Task(now + UNLOCK_MS, EndGamble)];
        return;
      }

      Remove(now);
      randomizing := false;
      frame := KindIndex(Random);  // the position of "random" in EFFECTS, by RandomFrame
    }

    /** 500 ms after a won gamble the power-up can be used again. */
    method FireEndGamble(k: nat, now: int)
      requires k < |pending| && pending[k].action == EndGamble && pending[k].dueAt <= now
      modifies this`randomizing, this`pending
      ensures !randomizing
      ensures pending == RemoveAt(old(pending), k)
      ensures old(Valid()) ==> Valid()
    {
      CountFire(pending, k, Reactivate);
      CountFire(pending, k, ResolveGamble);
      CountFire(pending, k, EndGamble);
      pending := RemoveAt(pending, k);
      randomizing := false;
    }

    /** 7500 ms after a size effect the player's scale is divided by 1.5. */
    method FireShrink(k: nat, now: int, player: Player)
      requires k < |pending| && pending[k].action == Shrink && pending[k].dueAt <= now
      modifies this`pending, player`sizeLevel
      ensures player.Snapshot() == old(player.Snapshot()).(sizeLevel := old(player.sizeLevel) - 1)
      ensures pending == RemoveAt(old(pending), k)
      ensures old(Valid()) ==> Valid()
    {
      CountFire(pending, k, Reactivate);
      CountFire(pending, k, ResolveGamble);
      CountFire(pending, k, EndGamble);
      CountFire(pending, k, Shrink);
      pending := RemoveAt(pending, k);
      player.sizeLevel := player.sizeLevel - 1;
    }

    /**
     * 7500 ms after a pull-down the gravity is set to 0, not to what it
     * was before: of two overlapping pull-downs, the first expiry ends both
     * while the second's restore is still pending.
     */
    method FireRestoreGravity(k: nat, now: int, player: Player)
      requires k < |pending| && pending[k].action == RestoreGravity && pending[k].dueAt <= now
      modifies this`pending, player`gravityY
      ensures player.gravityY == 0
      ensures player.Snapshot() == old(player.Snapshot()).(gravityY := 0)
      ensures pending == RemoveAt(old(pending), k)
      ensures Count(pending, RestoreGravity) == Count(old(pending), RestoreGravity) - 1
      ensures old(Valid()) ==> Valid()
    {
      CountFire(pending, k, Reactivate);
      CountFire(pending, k, ResolveGamble);
      CountFire(pending, k, EndGamble);
      CountFire(pending, k, RestoreGravity);
      pending := RemoveAt(pending, k);
      player.gravityY := 0;
    }
  }

  /**
   * An oxygen bubble does not keep its kind: once used, its reactivation
   * draws from the whole list like any other power-up (a draw of 0.75
   * brings it back as "size").
   */
  method OxygenBubbleComesBackDrawn() returns (before: string, after: string, hasIcon: bool)
    ensures before == "oxygen" && after == "size" && !hasIcon
  {
    var bubble := PowerUp.CreateOxygen();
    var player := new Player(150, 500, 0, 100, 100, false, 0, 0);
    before := bubble.effect;
    var used := bubble.Use(player, 0);
    bubble.FireReactivate(0, REGENERATION_MS, 0.75);
    after, hasIcon := bubble.effect, bubble.hasIcon;
  }

  /**
   * A size power-up used and then worn off, through the methods: using it
   * queues the shrink 7500 ms ahead of the reactivation at 30000 ms; when
   * the shrink fires, the player has back the record it had before the
   * pick-up and only the reactivation is left queued.
   */
  method SizeEffectWearsOff(p: PowerUp, player: Player, now: int)
    requires p.active && !p.randomizing && KindOf(p.effect) == Some(Size)
    modifies p, player
    ensures player.Snapshot() == old(player.Snapshot())
    ensures p.pending == old(p.pending) + [Task(now + REGENERATION_MS, Reactivate)]
    ensures !p.active && !p.visible
  {
    ghost var before := player.Snapshot();
    var q0 := p.pending;
    var used := p.Use(player, now);
    assert p.pending == q0 + [Task(now + EFFECT_DURATION_MS, Shrink), Task(now + REGENERATION_MS, Reactivate)];
    p.FireShrink(|q0|, now + EFFECT_DURATION_MS, player);
    SizeRoundTrip(before);
    assert p.pending == RemoveAt(q0 + [Task(now + EFFECT_DURATION_MS, Shrink), Task(now + REGENERATION_MS, Reactivate)], |q0|);
  }
}
