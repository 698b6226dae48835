/** The player script: a per-frame jump controller with an air-jump budget,
    a ground sensor refreshed every physics step, health changed by damage
    contacts and strawberry pickups, and the choice of animation clip.

    Only the vertical component of the velocity is modelled, as a `real`
    that the script either sets to the jump force or leaves alone. */
module PlayerScript {
  import opened Engine

  /** The four animation clips SetAnimations chooses between. */
  datatype Anim = Idle | Run | Jump | Fall

  /** The audio clips the player's audio source is asked to play. */
  datatype Clip = JumpClip | HurtClip | CoinClip

  /** One request to the audio source: which clip, at which volume. */
  datatype Sound = Sound(clip: Clip, volume: real)

  /** PlaySFX's default volume. */
  const DefaultVolume: real := 1.0
  const DamagePerHit: int := 25
  const StrawberryHeal: int := 20
  const MaxHealth: int := 100

  /** The inspector-set jump parameters Update reads. */
  datatype JumpConfig = JumpConfig(jumpForce: real, extraJumpValues: int)

  /** Ground contact, remaining air jumps and vertical velocity. */
  datatype Motion = Motion(grounded: bool, extraJumps: int, vy: real)

  /** Health and whether Die has been called. */
  datatype Vitals = Vitals(health: int, died: bool)

  // ---------------------------------------------------------------------
  // Specification of one call of each operation
  // ---------------------------------------------------------------------

  /** Whether a jump request in Update is honoured: always on the ground,
      in the air only while the budget is positive. */
  predicate JumpAllowed(m: Motion, jumpPressed: bool)
  {
    jumpPressed && (m.grounded || m.extraJumps > 0)
  }

  /** The effect of Update on the motion state. */
  function UpdateMotion(m: Motion, cfg: JumpConfig, jumpPressed: bool): (r: Motion)
    ensures r.grounded == m.grounded
    // on the ground the budget is refilled first, whatever happens next
    ensures m.grounded ==> r.extraJumps == cfg.extraJumpValues
    // an honoured request sets the vertical velocity, any other leaves it
    ensures r.vy == if JumpAllowed(m, jumpPressed) then cfg.jumpForce else m.vy
    // an air jump costs exactly one unit of budget
    ensures !m.grounded && JumpAllowed(m, jumpPressed) ==> r.extraJumps == m.extraJumps - 1
    // in the air, without an honoured request, nothing changes
    ensures !m.grounded && !JumpAllowed(m, jumpPressed) ==> r == m
    // nothing refills the budget while airborne
    ensures !m.grounded ==> r.extraJumps <= m.extraJumps
  {
    var budget := if m.grounded then cfg.extraJumpValues else m.extraJumps;
    if jumpPressed && m.grounded then
      Motion(m.grounded, budget, cfg.jumpForce)
    else if jumpPressed && budget > 0 then
      Motion(m.grounded, budget - 1, cfg.jumpForce)
    else
      Motion(m.grounded, budget, m.vy)
  }

  /** The effect of FixedUpdate: without a ground-check point the player is
      never grounded; otherwise grounded is the overlap test's answer. */
  function Sense(m: Motion, hasGroundCheck: bool, overlap: bool): (r: Motion)
    ensures !hasGroundCheck ==> !r.grounded
    ensures hasGroundCheck ==> r.grounded == overlap
    ensures r.extraJumps == m.extraJumps && r.vy == m.vy
  {
    if hasGroundCheck then m.(grounded := overlap) else m.(grounded := false)
  }

  /** The clip SetAnimations plays; every state gets exactly one clip. */
  function AnimationFor(grounded: bool, moveInput: real, vy: real): (a: Anim)
    ensures a == Idle <==> grounded && moveInput == 0.0
    ensures a == Run <==> grounded && moveInput != 0.0
    ensures a == Jump <==> !grounded && vy > 0.0
    ensures a == Fall <==> !grounded && vy <= 0.0
  {
    if grounded then
      if moveInput == 0.0 then Idle else Run
    else
      if vy > 0.0 then Jump else Fall
  }

  /** The effect of a collision on health: a "Damage" contact costs 25
      points, with no lower clamp, and calls Die once health is at or
      below zero; any other contact is ignored. */
  function Collide(v: Vitals, tag: string): (r: Vitals)
    ensures tag == DamageTag ==> r.health == v.health - DamagePerHit
    ensures tag == DamageTag ==> (r.died <==> v.died || r.health <= 0)
    ensures tag != DamageTag ==> r == v
  {
    if tag == DamageTag then
      var h := v.health - DamagePerHit;
      Vitals(h, v.died || h <= 0)
    else
      v
  }

  /** The effect of a trigger contact on health: a "Strawberry" heals 20
      points, capped at 100; any other trigger is ignored. */
  function Touch(v: Vitals, tag: string): (r: Vitals)
    ensures r.died == v.died
    ensures tag == StrawberryTag ==> r.health <= MaxHealth
    ensures tag == StrawberryTag && v.health + StrawberryHeal <= MaxHealth ==> r.health == v.health + StrawberryHeal
    ensures tag == StrawberryTag && v.health + StrawberryHeal > MaxHealth ==> r.health == MaxHealth
    ensures tag != StrawberryTag ==> r == v
  {
    if tag == StrawberryTag then
      var h := v.health + StrawberryHeal;
      Vitals(if h > MaxHealth then MaxHealth else h, v.died)
    else
      v
  }

  // ---------------------------------------------------------------------
  // Runs of frames and physics steps
  // ---------------------------------------------------------------------

  /** One engine callback that touches the motion state: a physics step
      with the overlap test's answer, or a frame with the jump key's edge. */
  datatype Tick = Physics(overlap: bool) | Frame(jumpPressed: bool)

  function Step(m: Motion, cfg: JumpConfig, hasGroundCheck: bool, t: Tick): Motion
  {
    match t
    case Physics(overlap) => Sense(m, hasGroundCheck, overlap)
    case Frame(jumpPressed) => UpdateMotion(m, cfg, jumpPressed)
  }

  /** The motion state after the ticks, in order, the engine interleaving
      physics steps and frames however it likes. */
  function Simulate(m: Motion, cfg: JumpConfig, hasGroundCheck: bool, ticks: seq<Tick>): Motion
    decreases |ticks|
  {
    if ticks == [] then m else Simulate(Step(m, cfg, hasGroundCheck, ticks[0]), cfg, hasGroundCheck, ticks[1..])
  }

  lemma {:induction false} SimulateAppend(m: Motion, cfg: JumpConfig, hasGroundCheck: bool, ticks: seq<Tick>, t: Tick)
    ensures Simulate(m, cfg, hasGroundCheck, ticks + [t]) == Step(Simulate(m, cfg, hasGroundCheck, ticks), cfg, hasGroundCheck, t)
    decreases |ticks|
  {
    if ticks == [] {
      assert ticks + [t] == [t];
    } else {
      assert (ticks + [t])[0] == ticks[0];
      assert (ticks + [t])[1..] == ticks[1..] + [t];
      SimulateAppend(Step(m, cfg, hasGroundCheck, ticks[0]), cfg, hasGroundCheck, ticks[1..], t);
    }
  }

  predicate BudgetInRange(m: Motion, cfg: JumpConfig)
  {
    0 <= m.extraJumps <= cfg.extraJumpValues
  }

  /** 0 <= extraJumps <= extraJumpValues holds after any run of frames and
      physics steps that starts from it (as Start establishes it whenever
      extraJumpValues is not negative). */
  lemma {:induction false} BudgetStaysInRange(m: Motion, cfg: JumpConfig, hasGroundCheck: bool, ticks: seq<Tick>)
    requires BudgetInRange(m, cfg)
    ensures BudgetInRange(Simulate(m, cfg, hasGroundCheck, ticks), cfg)
    decreases |ticks|
  {
    if ticks != [] {
      BudgetStaysInRange(Step(m, cfg, hasGroundCheck, ticks[0]), cfg, hasGroundCheck, ticks[1..]);
    }
  }

  /** Without a ground-check point an airborne player never lands, so the
      air-jump budget can only go down, whatever the run. */
  lemma {:induction false} NoGroundCheckNeverRefills(m: Motion, cfg: JumpConfig, ticks: seq<Tick>)
    requires !m.grounded
    ensures !Simulate(m, cfg, false, ticks).grounded
    ensures Simulate(m, cfg, false, ticks).extraJumps <= m.extraJumps
    decreases |ticks|
  {
    if ticks != [] {
      NoGroundCheckNeverRefills(Step(m, cfg, false, ticks[0]), cfg, ticks[1..]);
    }
  }

  /** The number of frames in `ticks` whose jump request is set. */
  function PressCount(ticks: seq<Tick>): nat
    decreases |ticks|
  {
    if ticks == [] then 0
    else (if ticks[0] == Frame(true) then 1 else 0) + PressCount(ticks[1..])
  }

  /** No physics step in `ticks` finds ground: either no ground-check point
      is assigned, or every overlap test answers false. */
  predicate StaysAirborne(hasGroundCheck: bool, ticks: seq<Tick>)
  {
    forall i :: 0 <= i < |ticks| ==> !(hasGroundCheck && ticks[i] == Physics(true))
  }

  /** The air-jump budget left after `presses` requests in the air, from a
      budget of `n`: each request takes one unit while any is left, and a
      negative budget (a negative extraJumpValues) is never touched. */
  function BudgetAfter(n: int, presses: nat): int
  {
    if n < 0 then n else if presses <= n then n - presses else 0
  }

  /** Over any airborne run, with frames without a request and physics
      steps anywhere in between, the player stays airborne and the budget
      falls by one per request until it is used up. */
  lemma {:induction false} AirborneRunBudget(m: Motion, cfg: JumpConfig, hasGroundCheck: bool, ticks: seq<Tick>)
    requires !m.grounded && StaysAirborne(hasGroundCheck, ticks)
    ensures !Simulate(m, cfg, hasGroundCheck, ticks).grounded
    ensures Simulate(m, cfg, hasGroundCheck, ticks).extraJumps == BudgetAfter(m.extraJumps, PressCount(ticks))
    decreases |ticks|
  {
    if ticks != [] {
      assert !(hasGroundCheck && ticks[0] == Physics(true));
      assert StaysAirborne(hasGroundCheck, ticks[1..]) by {
        forall i | 0 <= i < |ticks[1..]| ensures !(hasGroundCheck && ticks[1..][i] == Physics(true)) {
          assert ticks[1..][i] == ticks[i + 1];
        }
      }
      AirborneRunBudget(Step(m, cfg, hasGroundCheck, ticks[0]), cfg, hasGroundCheck, ticks[1..]);
    }
  }

  /** Starting airborne with extraJumps == N, over any airborne run a jump
      request is honoured exactly when fewer than N requests came before it
      since the start: N requests succeed and the next one is refused. An
      honoured request sets the vertical velocity to the jump force; a
      refused one leaves the motion state as it was. */
  lemma ExactlyBudgetAirJumps(m: Motion, cfg: JumpConfig, hasGroundCheck: bool, ticks: seq<Tick>, i: nat)
    requires !m.grounded && StaysAirborne(hasGroundCheck, ticks)
    requires i < |ticks| && ticks[i] == Frame(true)
    ensures JumpAllowed(Simulate(m, cfg, hasGroundCheck, ticks[..i]), true) <==> PressCount(ticks[..i]) < m.extraJumps
    ensures JumpAllowed(Simulate(m, cfg, hasGroundCheck, ticks[..i]), true)
        ==> Simulate(m, cfg, hasGroundCheck, ticks[..i + 1]).vy == cfg.jumpForce
    ensures !JumpAllowed(Simulate(m, cfg, hasGroundCheck, ticks[..i]), true)
        ==> Simulate(m, cfg, hasGroundCheck, ticks[..i + 1]) == Simulate(m, cfg, hasGroundCheck, ticks[..i])
  {
    assert StaysAirborne(hasGroundCheck, ticks[..i]) by {
      forall j | 0 <= j < |ticks[..i]| ensures !(hasGroundCheck && ticks[..i][j] == Physics(true)) {
        assert ticks[..i][j] == ticks[j];
      }
    }
    AirborneRunBudget(m, cfg, hasGroundCheck, ticks[..i]);
    assert ticks[..i + 1] == ticks[..i] + [Frame(true)];
    SimulateAppend(m, cfg, hasGroundCheck, ticks[..i], Frame(true));
  }

  // ---------------------------------------------------------------------
  // Runs of contacts
  // ---------------------------------------------------------------------

  /** A physical collision or a trigger overlap, with the other object's tag. */
  datatype Contact = Collision(tag: string) | Trigger(tag: string)

  function ApplyContact(v: Vitals, c: Contact): Vitals
  {
    match c
    case Collision(tag) => Collide(v, tag)
    case Trigger(tag) => Touch(v, tag)
  }

  function ApplyContacts(v: Vitals, cs: seq<Contact>): Vitals
    decreases |cs|
  {
    if cs == [] then v else ApplyContacts(ApplyContact(v, cs[0]), cs[1..])
  }

  /** health <= 100 survives every damage contact and every pickup, in any
      order; once Die has been called it stays called. */
  lemma {:induction false} HealthCapHolds(v: Vitals, cs: seq<Contact>)
    requires v.health <= MaxHealth
    ensures ApplyContacts(v, cs).health <= MaxHealth
    ensures v.died ==> ApplyContacts(v, cs).died
    decreases |cs|
  {
    if cs != [] {
      HealthCapHolds(ApplyContact(v, cs[0]), cs[1..]);
    }
  }

  /** n damage contacts in a row. */
  function Hits(n: nat): seq<Contact>
  {
    if n == 0 then [] else [Collision(DamageTag)] + Hits(n - 1)
  }

  /** n hits cost exactly 25 * n health, and Die has been called exactly
      when the health reached is at or below zero (or it had been before). */
  lemma {:induction false} HitsUntilDeath(v: Vitals, n: nat)
    ensures ApplyContacts(v, Hits(n)).health == v.health - DamagePerHit * n
    ensures ApplyContacts(v, Hits(n)).died <==> v.died || (n > 0 && v.health - DamagePerHit * n <= 0)
    decreases n
  {
    if n > 0 {
      var v' := Collide(v, DamageTag);
      assert Hits(n)[0] == Collision(DamageTag) && Hits(n)[1..] == Hits(n - 1);
      HitsUntilDeath(v', n - 1);
    }
  }

  // ---------------------------------------------------------------------
  // The script itself
  // ---------------------------------------------------------------------

  class Player {
    var coins: int
    var health: int
    var jumpForce: real
    var extraJumpValues: int
    /** Whether a ground-check transform is assigned. */
    const hasGroundCheck: bool

    var extraJumps: int
    var isGrounded: bool
    var velocityY: real
    /** Set by Die, which reloads the level. */
    var died: bool
    /** The clip last handed to the animator, if any. */
    var animation: Option<Anim>
    /** Every request made to the audio source, oldest first. */
    var sounds: seq<Sound>

    function CurrentMotion(): Motion
      reads this
    {
      Motion(isGrounded, extraJumps, velocityY)
    }

    function Config(): JumpConfig
      reads this
    {
      JumpConfig(jumpForce, extraJumpValues)
    }

    function CurrentVitals(): Vitals
      reads this
    {
      Vitals(health, died)
    }

    /** The object as the scene creates it, with the serialized public
        fields; private fields take their default values. */
    constructor (coins: int, health: int, jumpForce: real, extraJumpValues: int, hasGroundCheck: bool)
      ensures this.coins == coins && this.health == health && this.jumpForce == jumpForce
      ensures this.extraJumpValues == extraJumpValues && this.hasGroundCheck == hasGroundCheck
      ensures extraJumps == 0 && !isGrounded && velocityY == 0.0
      ensures !died && animation == None && sounds == []
    {
      this.coins := coins;
      this.health := health;
      this.jumpForce := jumpForce;
      this.extraJumpValues := extraJumpValues;
      this.hasGroundCheck := hasGroundCheck;
      extraJumps := 0;
      isGrounded := false;
      velocityY := 0.0;
      died := false;
      animation := None;
      sounds := [];
    }

    /** Start fills the air-jump budget. */
    method Start()
      modifies this`extraJumps
      ensures extraJumps == extraJumpValues
      ensures extraJumpValues >= 0 ==> BudgetInRange(CurrentMotion(), Config())
    {
      extraJumps := extraJumpValues;
    }

    /** One frame: refill the budget when grounded, honour a jump request,
        then choose the animation. */
    method Update(moveInput: real, jumpPressed: bool)
      modifies this`extraJumps, this`velocityY, this`animation, this`sounds
      ensures CurrentMotion() == UpdateMotion(old(CurrentMotion()), Config(), jumpPressed)
      ensures animation == Some(AnimationFor(isGrounded, moveInput, velocityY))
      ensures sounds == old(sounds)
        + if JumpAllowed(old(CurrentMotion()), jumpPressed) then [Sound(JumpClip, DefaultVolume)] else []
    {
      if isGrounded {
        extraJumps := extraJumpValues;
      }
      if jumpPressed {
        if isGrounded {
          velocityY := jumpForce;
          PlaySFX(JumpClip, DefaultVolume);
        } else if extraJumps > 0 {
          velocityY := jumpForce;
          extraJumps := extraJumps - 1;
          PlaySFX(JumpClip, DefaultVolume);
        }
      }
      SetAnimations(moveInput);
    }

    /** One physics step; `overlap` is the ground overlap test's answer,
        consulted only when a ground-check point is assigned. */
    method FixedUpdate(overlap: bool)
      modifies this`isGrounded
      ensures CurrentMotion() == Sense(old(CurrentMotion()), hasGroundCheck, overlap)
    {
      if hasGroundCheck {
        isGrounded := overlap;
      } else {
        isGrounded := false;
      }
    }

    method SetAnimations(moveInput: real)
      modifies this`animation
      ensures animation == Some(AnimationFor(isGrounded, moveInput, velocityY))
    {
      if isGrounded {
        if moveInput == 0.0 {
          animation := Some(Idle);
        } else {
          animation := Some(Run);
        }
      } else {
        if velocityY > 0.0 {
          animation := Some(Jump);
        } else {
          animation := Some(Fall);
        }
      }
    }

    /** A physical collision with an object tagged `tag`. */
    method OnCollisionEnter2D(tag: string)
      modifies this`health, this`died, this`velocityY, this`sounds
      ensures CurrentVitals() == Collide(old(CurrentVitals()), tag)
      ensures velocityY == if tag == DamageTag then jumpForce else old(velocityY)
      ensures sounds == old(sounds) + if tag == DamageTag then [Sound(HurtClip, DefaultVolume)] else []
    {
      if tag == DamageTag {
        PlaySFX(HurtClip, DefaultVolume);
        health := health - DamagePerHit;
        velocityY := jumpForce;
        if health <= 0 {
          Die();
        }
      }
    }

    method Die()
      modifies this`died
      ensures died
    {
      died := true;
    }

    method PlaySFX(clip: Clip, volume: real)
      modifies this`sounds
      ensures sounds == old(sounds) + [Sound(clip, volume)]
    {
      sounds := sounds + [Sound(clip, volume)];
    }

    /** A trigger overlap with `other`; a strawberry is eaten and destroyed. */
    method OnTriggerEnter2D(other: GameObject)
      requires !other.destroyed
      modifies this`health, other`destroyed
      ensures CurrentVitals() == Touch(old(CurrentVitals()), other.tag)
      ensures other.destroyed == (other.tag == StrawberryTag)
    {
      if other.tag == StrawberryTag {
        health := health + StrawberryHeal;
        if health > MaxHealth {
          health := MaxHealth;
        }
        other.destroyed := true;
      }
    }
  }
}
