/**
 * Hostile fish (src/fish.ts): the patrol programs chosen by a movement tag,
 * the looping chain that plays them, the attack that pauses it, and the
 * options read from a Tiled object's properties.
 */
module FishSprite {
  import opened Wrappers
  import opened Timers
  import opened Tiled

  const DEFAULT_PATROL_AREA := 100
  const MOVE_MS := 1000
  const TURN_MS := 400
  const TURN_DEGREES := 90
  const LEG_DELAY_MS := 700
  const FLOAT_DY := -5
  /** Length of the 'fish-attack' animation: four frames at 8 frames per second. */
  const ATTACK_MS := 500

  datatype Movement = Static | Horizontal | Vertical | Mixed
  datatype Axis = X | Y | Angle
  /** What a leg's start callback does to the sprite's horizontal flip. */
  datatype Flip = KeepFlip | ClearFlip | SetFlip

  /** One tween of a patrol chain: move `axis` by `delta` over `duration` ms after `delay` ms. */
  datatype Segment = Segment(axis: Axis, delta: int, duration: nat, delay: nat, yoyo: bool, flip: Flip)

  datatype Pose = Pose(x: int, y: int, angle: int)

  datatype FishOpts = FishOpts(movement: Movement, patrolArea: int)
  datatype OptsError = BadPatrolArea | UnknownMovement

  datatype FishAnim = SwimAnim | AttackAnim
  datatype FishAction = ResumePatrol

  // ---------------------------------------------------------------------
  // Segment tables

  function MoveRight(area: int): Segment { Segment(X, area, MOVE_MS, 0, false, ClearFlip) }
  function MoveLeft(area: int): Segment { Segment(X, -area, MOVE_MS, 0, false, SetFlip) }
  function MoveUp(area: int): Segment { Segment(Y, -area, MOVE_MS, 0, false, KeepFlip) }
  function MoveDown(area: int): Segment { Segment(Y, area, MOVE_MS, 0, false, KeepFlip) }
  function RotateLeft(): Segment { Segment(Angle, -TURN_DEGREES, TURN_MS, 0, false, KeepFlip) }
  function RotateRight(): Segment { Segment(Angle, TURN_DEGREES, TURN_MS, 0, false, KeepFlip) }
  /** The static float: up by 5 and back, forever. */
  function Float(): Segment { Segment(Y, FLOAT_DY, MOVE_MS, 0, true, KeepFlip) }
  function Delayed(s: Segment): Segment { s.(delay := LEG_DELAY_MS) }

  /** Positions of the legs written with a 700 ms delay. */
  function DelayedLegs(m: Movement): set<nat>
  {
    match m
    case Static => {}
    case Horizontal => {0, 1}
    case Vertical => {4}
    case Mixed => {0, 1, 6, 9, 11, 14}
  }

  function LegCount(m: Movement): nat
  {
    match m
    case Static => 1
    case Horizontal => 2
    case Vertical => 6
    case Mixed => 16
  }

  /** The patrol program of a movement tag, one tween per leg. */
  function Segments(m: Movement, area: int): (r: seq<Segment>)
    ensures |r| == LegCount(m)
  {
    match m
    case Static => [Float()]
    case Horizontal => [Delayed(MoveRight(area)), Delayed(MoveLeft(area))]
    case Vertical =>
      [RotateRight(), MoveDown(area), RotateLeft(), RotateLeft(), Delayed(MoveUp(area)), RotateRight()]
    case Mixed =>
      [Delayed(MoveRight(area)), Delayed(MoveLeft(area)), RotateLeft(), MoveDown(area),
       RotateRight(), RotateRight(), Delayed(MoveUp(area)), RotateLeft(),
       MoveLeft(area), Delayed(MoveRight(area)), RotateLeft(), Delayed(MoveUp(area)),
       RotateRight(), RotateRight(), Delayed(MoveDown(area)), RotateLeft()]
  }

  /**
   * The shape of one leg of a moving program: translations move by the
   * patrol area over 1000 ms, rotations turn by 90 degrees over 400 ms,
   * right/left legs clear/set the flip when they start, and no leg is a yoyo.
   */
  ghost predicate LegShaped(s: Segment, area: int)
  {
    && !s.yoyo
    && (s.axis == Angle ==> s.duration == TURN_MS && (s.delta == TURN_DEGREES || s.delta == -TURN_DEGREES))
    && (s.axis != Angle ==> s.duration == MOVE_MS && (s.delta == area || s.delta == -area))
    && (s.flip == ClearFlip ==> s.axis == X && s.delta == area)
    && (s.flip == SetFlip ==> s.axis == X && s.delta == -area)
    && (s.axis == X <==> s.flip != KeepFlip)
  }

  /**
   * The shape of every program: a delay of 700 ms stands exactly on the
   * listed legs, the static program is the single yoyo float, and every
   * leg of the other programs is shaped as above.
   */
  lemma SegmentShapes(m: Movement, area: int)
    ensures var r := Segments(m, area);
      && (forall i :: 0 <= i < |r| ==> r[i].delay == (if i in DelayedLegs(m) then LEG_DELAY_MS else 0))
      && (m == Static ==> r == [Float()])
      && (m != Static ==> forall i :: 0 <= i < |r| ==> LegShaped(r[i], area))
  {
    BuildersShaped(area);
  }

  lemma BuildersShaped(area: int)
    ensures LegShaped(MoveRight(area), area) && LegShaped(MoveLeft(area), area)
    ensures LegShaped(MoveUp(area), area) && LegShaped(MoveDown(area), area)
    ensures LegShaped(RotateLeft(), area) && LegShaped(RotateRight(), area)
    ensures forall s :: LegShaped(s, area) ==> LegShaped(Delayed(s), area)
  {
  }

  // ---------------------------------------------------------------------
  // Playing segments

  /** Where one completed leg leaves the fish; a yoyo leg ends where it began. */
  function Play(p: Pose, s: Segment): Pose
  {
    if s.yoyo then p
    else match s.axis
      case X => p.(x := p.x + s.delta)
      case Y => p.(y := p.y + s.delta)
      case Angle => p.(angle := p.angle + s.delta)
  }

  function RunPass(p: Pose, segs: seq<Segment>): Pose
    decreases |segs|
  {
    if segs == [] then p else RunPass(Play(p, segs[0]), segs[1..])
  }

  /** How far one completed leg moves the fish along one axis. */
  function Contribution(s: Segment, a: Axis): int
  {
    if !s.yoyo && s.axis == a then s.delta else 0
  }

  /** Net change along one axis over a sequence of legs. */
  function Net(segs: seq<Segment>, a: Axis): int
    decreases |segs|
  {
    if segs == [] then 0 else Contribution(segs[0], a) + Net(segs[1..], a)
  }

  lemma {:induction false} RunPassIsNet(p: Pose, segs: seq<Segment>)
    ensures RunPass(p, segs) == Pose(p.x + Net(segs, X), p.y + Net(segs, Y), p.angle + Net(segs, Angle))
    decreases |segs|
  {
    if segs != [] {
      RunPassIsNet(Play(p, segs[0]), segs[1..]);
    }
  }

  lemma {:induction false} NetConcat(a: seq<Segment>, b: seq<Segment>, ax: Axis)
    ensures Net(a + b, ax) == Net(a, ax) + Net(b, ax)
    decreases |a|
  {
    if a == [] {
      assert a + b == b;
    } else {
      assert (a + b)[1..] == a[1..] + b;
      NetConcat(a[1..], b, ax);
    }
  }

  /** Playing one more leg after a prefix. */
  lemma RunPassSnoc(p: Pose, segs: seq<Segment>, s: Segment)
    ensures RunPass(p, segs + [s]) == Play(RunPass(p, segs), s)
  {
    RunPassIsNet(p, segs + [s]);
    RunPassIsNet(p, segs);
    NetConcat(segs, [s], X);
    NetConcat(segs, [s], Y);
    NetConcat(segs, [s], Angle);
    assert [s][1..] == [];
  }

  /**
   * Playing leg i after the legs before it; after the last leg of a
   * program that returns home, the fish is home.
   */
  lemma LegStep(home: Pose, segs: seq<Segment>, i: nat)
    requires i < |segs| && RunPass(home, segs) == home
    ensures RunPass(home, segs[..NextLeg(i, |segs|)]) == Play(RunPass(home, segs[..i]), segs[i])
    ensures i + 1 == |segs| ==> Play(RunPass(home, segs[..i]), segs[i]) == home
  {
    RunPassSnoc(home, segs[..i], segs[i]);
    assert segs[..i + 1] == segs[..i] + [segs[i]];
    if i + 1 == |segs| {
      assert segs[..i + 1] == segs;
      assert segs[..0] == [];
    }
  }

  /** The leg after leg i of an n-leg chain that repeats forever. */
  function NextLeg(i: nat, n: nat): (j: nat)
    requires i < n
    ensures j < n && (j == 0 <==> i + 1 == n)
    ensures i + 1 < n ==> j == i + 1
  {
    if i + 1 == n then 0 else i + 1
  }

  /** One pass of any patrol program leaves x, y and the angle where they were. */
  lemma PassReturnsHome(m: Movement, area: int, p: Pose)
    ensures RunPass(p, Segments(m, area)) == p
  {
    var r := Segments(m, area);
    RunPassIsNet(p, r);
    forall ax ensures Net(r, ax) == 0 {
      NetZero(m, area, ax);
    }
  }

  /** Net change along one axis over the first n legs. */
  function NetPrefix(s: seq<Segment>, n: nat, a: Axis): int
    requires n <= |s|
  {
    if n == 0 then 0 else NetPrefix(s, n - 1, a) + Contribution(s[n - 1], a)
  }

  lemma {:induction false} NetIsPrefix(s: seq<Segment>, a: Axis)
    ensures Net(s, a) == NetPrefix(s, |s|, a)
    decreases |s|
  {
    if s != [] {
      var init := s[..|s| - 1];
      assert s == init + [s[|s| - 1]];
      NetConcat(init, [s[|s| - 1]], a);
      assert [s[|s| - 1]][1..] == [];
      NetIsPrefix(init, a);
      PrefixAgrees(init, s, |init|, a);
    }
  }

  /** The first n legs of a longer program have the same net change. */
  lemma {:induction false} PrefixAgrees(init: seq<Segment>, s: seq<Segment>, n: nat, a: Axis)
    requires n <= |init| <= |s| && init == s[..|init|]
    ensures NetPrefix(init, n, a) == NetPrefix(s, n, a)
  {
    if n > 0 {
      PrefixAgrees(init, s, n - 1, a);
    }
  }

  lemma NetZero(m: Movement, area: int, ax: Axis)
    ensures Net(Segments(m, area), ax) == 0
  {
    match m
    case Static => NetZeroStatic(area, ax);
    case Horizontal => NetZeroHorizontal(area, ax);
    case Vertical => NetZeroVertical(area, ax);
    case Mixed => NetZeroMixed(area, ax);
  }

  lemma NetZeroStatic(area: int, ax: Axis)
    ensures Net(Segments(Static, area), ax) == 0
  {
    var s := Segments(Static, area);
    NetIsPrefix(s, ax);
    assert NetPrefix(s, 1, ax) == NetPrefix(s, 0, ax) + Contribution(s[0], ax);
  }

  lemma NetZeroHorizontal(area: int, ax: Axis)
    ensures Net(Segments(Horizontal, area), ax) == 0
  {
    var s := Segments(Horizontal, area);
    NetIsPrefix(s, ax);
    assert NetPrefix(s, 1, ax) == NetPrefix(s, 0, ax) + Contribution(s[0], ax);
    assert NetPrefix(s, 2, ax) == NetPrefix(s, 1, ax) + Contribution(s[1], ax);
  }

  lemma NetZeroVertical(area: int, ax: Axis)
    ensures Net(Segments(Vertical, area), ax) == 0
  {
    var s := Segments(Vertical, area);
    NetIsPrefix(s, ax);
    assert NetPrefix(s, 1, ax) == NetPrefix(s, 0, ax) + Contribution(s[0], ax);
    assert NetPrefix(s, 2, ax) == NetPrefix(s, 1, ax) + Contribution(s[1], ax);
    assert NetPrefix(s, 3, ax) == NetPrefix(s, 2, ax) + Contribution(s[2], ax);
    assert NetPrefix(s, 4, ax) == NetPrefix(s, 3, ax) + Contribution(s[3], ax);
    assert NetPrefix(s, 5, ax) == NetPrefix(s, 4, ax) + Contribution(s[4], ax);
    assert NetPrefix(s, 6, ax) == NetPrefix(s, 5, ax) + Contribution(s[5], ax);
  }

  lemma NetZeroMixed(area: int, ax: Axis)
    ensures Net(Segments(Mixed, area), ax) == 0
  {
    var s := Segments(Mixed, area);
    NetOfSixteen(s, ax);
  }

  /** The net change of a sixteen-leg program, leg by leg. */
  lemma NetOfSixteen(s: seq<Segment>, ax: Axis)
    requires |s| == 16
    ensures Net(s, ax) ==
        Contribution(s[0], ax) + Contribution(s[1], ax) + Contribution(s[2], ax) + Contribution(s[3], ax)
        + Contribution(s[4], ax) + Contribution(s[5], ax) + Contribution(s[6], ax) + Contribution(s[7], ax)
        + Contribution(s[8], ax) + Contribution(s[9], ax) + Contribution(s[10], ax) + Contribution(s[11], ax)
        + Contribution(s[12], ax) + Contribution(s[13], ax) + Contribution(s[14], ax) + Contribution(s[15], ax)
  {
    NetIsPrefix(s, ax);
    assert NetPrefix(s, 1, ax) == NetPrefix(s, 0, ax) + Contribution(s[0], ax);
    assert NetPrefix(s, 2, ax) == NetPrefix(s, 1, ax) + Contribution(s[1], ax);
    assert NetPrefix(s, 3, ax) == NetPrefix(s, 2, ax) + Contribution(s[2], ax);
    assert NetPrefix(s, 4, ax) == NetPrefix(s, 3, ax) + Contribution(s[3], ax);
    assert NetPrefix(s, 5, ax) == NetPrefix(s, 4, ax) + Contribution(s[4], ax);
    assert NetPrefix(s, 6, ax) == NetPrefix(s, 5, ax) + Contribution(s[5], ax);
    assert NetPrefix(s, 7, ax) == NetPrefix(s, 6, ax) + Contribution(s[6], ax);
    assert NetPrefix(s, 8, ax) == NetPrefix(s, 7, ax) + Contribution(s[7], ax);
    assert NetPrefix(s, 9, ax) == NetPrefix(s, 8, ax) + Contribution(s[8], ax);
    assert NetPrefix(s, 10, ax) == NetPrefix(s, 9, ax) + Contribution(s[9], ax);
    assert NetPrefix(s, 11, ax) == NetPrefix(s, 10, ax) + Contribution(s[10], ax);
    assert NetPrefix(s, 12, ax) == NetPrefix(s, 11, ax) + Contribution(s[11], ax);
    assert NetPrefix(s, 13, ax) == NetPrefix(s, 12, ax) + Contribution(s[12], ax);
    assert NetPrefix(s, 14, ax) == NetPrefix(s, 13, ax) + Contribution(s[13], ax);
    assert NetPrefix(s, 15, ax) == NetPrefix(s, 14, ax) + Contribution(s[14], ax);
    assert NetPrefix(s, 16, ax) == NetPrefix(s, 15, ax) + Contribution(s[15], ax);
  }

  /** n passes of the looping chain. */
  function Loop(p: Pose, segs: seq<Segment>, n: nat): Pose
    decreases n
  {
    if n == 0 then p else Loop(RunPass(p, segs), segs, n - 1)
  }

  /** The infinite loop brings the fish back to its start pose after every pass. */
  lemma {:induction false} LoopReturnsHome(m: Movement, area: int, p: Pose, n: nat)
    ensures Loop(p, Segments(m, area), n) == p
  {
    if n > 0 {
      PassReturnsHome(m, area, p);
      LoopReturnsHome(m, area, p, n - 1);
    }
  }

  // ---------------------------------------------------------------------
  // Options from a Tiled object

  /** The left fold over the property list: each property writes its value under its name. */
  function CollectInto(acc: map<string, Value>, props: seq<Property>): map<string, Value>
    decreases |props|
  {
    if props == [] then acc
    else CollectInto(acc[props[0].name := props[0].value], props[1..])
  }

  function Collect(props: Option<seq<Property>>): map<string, Value>
  {
    CollectInto(map[], props.GetOr([]))
  }

  /** A name that no property carries keeps the value it had in the accumulator. */
  lemma {:induction false} CollectKeeps(acc: map<string, Value>, props: seq<Property>, name: string)
    requires forall j :: 0 <= j < |props| ==> props[j].name != name
    ensures name in CollectInto(acc, props) <==> name in acc
    ensures name in acc ==> CollectInto(acc, props)[name] == acc[name]
    decreases |props|
  {
    if props != [] {
      CollectKeeps(acc[props[0].name := props[0].value], props[1..], name);
    }
  }

  /** The fold keeps the value of the LAST property with a given name. */
  lemma {:induction false} CollectLast(acc: map<string, Value>, props: seq<Property>, i: nat)
    requires i < |props|
    requires forall j :: i < j < |props| ==> props[j].name != props[i].name
    ensures props[i].name in CollectInto(acc, props)
    ensures CollectInto(acc, props)[props[i].name] == props[i].value
    decreases |props|
  {
    var acc' := acc[props[0].name := props[0].value];
    if i == 0 {
      CollectKeeps(acc', props[1..], props[0].name);
    } else {
      CollectLast(acc', props[1..], i - 1);
    }
  }

  /** The names of a program: the four tags a map may give. */
  function MovementName(m: Movement): string
  {
    match m
    case Static => "static"
    case Horizontal => "horizontal"
    case Vertical => "vertical"
    case Mixed => "mixed"
  }

  function ParseMovement(s: string): (r: Result<Movement, OptsError>)
    ensures r.Ok? ==> MovementName(r.value) == s
  {
    if s == "static" then Ok(Static)
    else if s == "horizontal" then Ok(Horizontal)
    else if s == "vertical" then Ok(Vertical)
    else if s == "mixed" then Ok(Mixed)
    else Err(UnknownMovement)
  }

  lemma MovementRoundTrip(m: Movement)
    ensures ParseMovement(MovementName(m)) == Ok(m)
  {
  }

  /**
   * The destructuring with defaults: a missing patrol area is 100 and a
   * missing movement is "static"; a present option is used as given. A
   * patrol area that is not a number or a movement that is not one of the
   * four tags is an error.
   */
  function PatrolOptions(opts: map<string, Value>): (r: Result<FishOpts, OptsError>)
    ensures "patrolArea" !in opts && "movement" !in opts ==> r == Ok(FishOpts(Static, DEFAULT_PATROL_AREA))
    ensures r.Ok? && "patrolArea" !in opts ==> r.value.patrolArea == DEFAULT_PATROL_AREA
    ensures r.Ok? && "patrolArea" in opts ==> opts["patrolArea"] == Num(r.value.patrolArea)
    ensures r.Ok? && "movement" in opts ==> opts["movement"] == Text(MovementName(r.value.movement))
    ensures r.Ok? && "movement" !in opts ==> r.value.movement == Static
    ensures r.Err? <==>
      || ("patrolArea" in opts && opts["patrolArea"].Text?)
      || ("movement" in opts && forall m :: opts["movement"] != Text(MovementName(m)))
  {
    var area := if "patrolArea" !in opts then Ok(DEFAULT_PATROL_AREA)
                else match opts["patrolArea"]
                  case Num(n) => Ok(n)
                  case Text(_) => Err(BadPatrolArea);
    var movement := if "movement" !in opts then Ok(Static)
                    else match opts["movement"]
                      case Text(s) => ParseMovement(s)
                      case Num(_) => Err(UnknownMovement);
    if area.Err? then Err(area.error)
    else if movement.Err? then Err(movement.error)
    else Ok(FishOpts(movement.value, area.value))
  }

  // ---------------------------------------------------------------------
  // The fish

  class Fish {
    const home: Pose
    const movement: Movement
    const patrolArea: int
    const segs: seq<Segment>
    var pose: Pose
    var flipX: bool
    /** The leg of the patrol chain now playing. */
    var index: nat
    var paused: bool
    var anim: FishAnim
    var pending: seq<Task<FishAction>>

    /**
     * The chain's program brings the fish home after every pass, and the
     * fish stands where the legs played so far in this pass put it.
     */
    ghost predicate Valid()
      reads this
    {
      && index < |segs|
      && RunPass(home, segs) == home
      && pose == RunPass(home, segs[..index])
    }

    constructor (x: int, y: int, opts: FishOpts)
      ensures home == Pose(x, y, 0) && pose == home
      ensures movement == opts.movement && patrolArea == opts.patrolArea
      ensures segs == Segments(movement, patrolArea)
      ensures index == 0 && !paused && anim == SwimAnim && !flipX && pending == []
      ensures Valid()
    {
      home := Pose(x, y, 0);
      movement := opts.movement;
      patrolArea := opts.patrolArea;
      segs := Segments(opts.movement, opts.patrolArea);
      pose := Pose(x, y, 0);
      flipX := false;
      index := 0;
      paused := false;
      anim := SwimAnim;
      pending := [];
      PassReturnsHome(opts.movement, opts.patrolArea, Pose(x, y, 0));
    }

    /** A fish placed by a map object, with its options folded from the object's properties. */
    static method FromTileObject(obj: TiledObject) returns (r: Result<Fish, OptsError>)
      requires obj.x.Some? && obj.y.Some?
      ensures PatrolOptions(Collect(obj.properties)).Err? ==> r == Err(PatrolOptions(Collect(obj.properties)).error)
      ensures PatrolOptions(Collect(obj.properties)).Ok? ==>
        && r.Ok? && fresh(r.value) && r.value.Valid()
        && r.value.segs == Segments(r.value.movement, r.value.patrolArea)
        && r.value.home == Pose(obj.x.value, obj.y.value, 0)
        && FishOpts(r.value.movement, r.value.patrolArea) == PatrolOptions(Collect(obj.properties)).value
        && r.value.index == 0 && r.value.pose == r.value.home
        && r.value.anim == SwimAnim && !r.value.flipX
        && !r.value.paused && r.value.pending == []
    {
      var opts := PatrolOptions(Collect(obj.properties));
      if opts.Err? {
        return Err(opts.error);
      }
      var f := new Fish(obj.x.value, obj.y.value, opts.value);
      return Ok(f);
    }

    /**
     * The current leg plays to its end: its start callback sets the flip,
     * the fish moves by the leg, and the chain goes on to the next leg,
     * wrapping to the first; at the start of every pass it is home again.
     */
    method CompleteLeg()
      requires Valid() && !paused
      modifies this`pose, this`index, this`flipX
      ensures Valid()
      ensures pose == Play(old(pose), segs[old(index)])
      ensures index == NextLeg(old(index), |segs|)
      ensures flipX == match segs[old(index)].flip
                       case KeepFlip => old(flipX)
                       case ClearFlip => false
                       case SetFlip => true
      ensures index == 0 ==> pose == home
    {
      var leg := segs[index];
      if leg.flip == ClearFlip {
        flipX := false;
      } else if leg.flip == SetFlip {
        flipX := true;
      }
      LegStep(home, segs, index);
      pose := Play(pose, leg);
      index := NextLeg(index, |segs|);
    }

    /**
     * Pause the chain and schedule one resume after the attack animation.
     * There is no re-entry guard: each call adds a resume.
     */
    method Attack(now: int)
      modifies this`anim, this`paused, this`pending
      ensures anim == AttackAnim && paused
      ensures pending == old(pending) + [Task(now + ATTACK_MS, ResumePatrol)]
      ensures Count(pending, ResumePatrol) == Count(old(pending), ResumePatrol) + 1
    {
      anim := AttackAnim;
      paused := true;
      CountSchedule(pending, Task(now + ATTACK_MS, ResumePatrol), ResumePatrol);
      pending := pending + [Task(now + ATTACK_MS, ResumePatrol)];
    }

    /** The resume fires: swimming again, from the leg and pose where the chain was paused. */
    method FireResume(k: nat, now: int)
      requires k < |pending| && pending[k].action == ResumePatrol && pending[k].dueAt <= now
      modifies this`anim, this`paused, this`pending
      ensures anim == SwimAnim && !paused
      ensures index == old(index) && pose == old(pose)
      ensures pending == RemoveAt(old(pending), k)
      ensures Count(pending, ResumePatrol) == Count(old(pending), ResumePatrol) - 1
    {
      CountFire(pending, k, ResumePatrol);
      anim := SwimAnim;
      paused := false;
      pending := RemoveAt(pending, k);
    }
  }

  /**
   * Attacks at 0 and 300 ms: the first resume fires at 500 ms and unpauses
   * the chain while the second attack's resume is still pending for 800 ms.
   */
  method EarlyResume() returns (pausedAt500: bool, stillPending: nat)
    ensures !pausedAt500 && stillPending == 1
  {
    var f := new Fish(0, 0, FishOpts(Horizontal, DEFAULT_PATROL_AREA));
    f.Attack(0);
    f.Attack(300);
    f.FireResume(0, 500);
    pausedAt500 := f.paused;
    stillPending := |f.pending|;
    assert f.pending == [Task(800, ResumePatrol)];
  }
}
