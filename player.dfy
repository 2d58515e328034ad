/** PlayerChunLi, its discrete part: the jump counter and its latch, the
    hit/canMove gate, the dash timer, and health with the game-over scene
    request. Motion, physics and the camera are not modelled; the controller's
    grounded flag, "the impact has died down" and the buttons pressed are
    inputs to each frame. */
module Player {

  const GameOverScene: string := "GameOverScene"

  /** The fields that the discrete behaviour reads and writes. `sceneLoads`
      records the SceneManager.LoadScene requests made so far. */
  datatype PlayerState = PlayerState(
    canJump: bool,
    wasGrounded: bool,
    jumpsRemaining: int,
    hit: bool,
    canMove: bool,
    canDash: bool,
    currentDashTime: real,
    currentHealth: real,
    sceneLoads: seq<string>)

  /** The inspector-set values `maxDashTime`, `maxHealth` and `maxJumps`. */
  datatype PlayerConfig = PlayerConfig(maxDashTime: real, maxHealth: real, maxJumps: int)

  /** What one `Update` frame reads from the engine. */
  datatype FrameInput = FrameInput(
    grounded: bool,       // charCont.isGrounded
    settled: bool,        // grounded again after the impact move, impact.magnitude <= 0.2
    dashDown: bool,       // Input.GetButtonDown("Dash")
    jumpDown: bool,       // Input.GetButtonDown("Jump")
    damageKeyDown: bool,  // Input.GetKeyDown(KeyCode.P)
    deltaTime: real)      // Time.deltaTime

  /** What a frame leaves behind, and whether it made the player jump. */
  datatype Outcome = Outcome(next: PlayerState, jumped: bool)

  /** IsDashing(): the dash timer has not yet run out. */
  predicate Dashing(p: PlayerState, cfg: PlayerConfig)
  {
    p.currentDashTime < cfg.maxDashTime
  }

  // ---------------------------------------------------------------- health

  /** TakeDamage(d) / ApplyDMG(d): health drops by exactly `d`; the game-over
      scene is requested exactly when the result is 0 or below. */
  function LoseHealth(p: PlayerState, damage: real): (r: PlayerState)
    ensures r.currentHealth == p.currentHealth - damage
    ensures |r.sceneLoads| == |p.sceneLoads| || |r.sceneLoads| == |p.sceneLoads| + 1
    ensures |r.sceneLoads| == |p.sceneLoads| + 1 <==> r.currentHealth <= 0.0
    ensures r.sceneLoads[..|p.sceneLoads|] == p.sceneLoads
    ensures |r.sceneLoads| > |p.sceneLoads| ==> r.sceneLoads[|p.sceneLoads|] == GameOverScene
    ensures r.(currentHealth := p.currentHealth, sceneLoads := p.sceneLoads) == p
  {
    var h := p.currentHealth - damage;
    p.(currentHealth := h, sceneLoads := if h <= 0.0 then p.sceneLoads + [GameOverScene] else p.sceneLoads)
  }

  /** TakeDamagePercentage(pct): the same, by a fraction of the maximum. */
  function LosePercentage(p: PlayerState, cfg: PlayerConfig, percentage: real): (r: PlayerState)
    ensures r.currentHealth == p.currentHealth - cfg.maxHealth * percentage
    ensures |r.sceneLoads| == |p.sceneLoads| + 1 <==> r.currentHealth <= 0.0
  {
    LoseHealth(p, cfg.maxHealth * percentage)
  }

  // ------------------------------------------------------------ being hit

  /** ApplyDMG(dir, force): a second hit while already hit changes nothing;
      otherwise the player is hit, loses control and any dash is cancelled. */
  function HitBy(p: PlayerState, cfg: PlayerConfig): (r: PlayerState)
    ensures p.hit ==> r == p
    ensures !p.hit ==> r.hit && !r.canMove && r.currentDashTime == cfg.maxDashTime && !Dashing(r, cfg)
    ensures !p.hit ==> r.(hit := p.hit, canMove := p.canMove, currentDashTime := p.currentDashTime) == p
  {
    if p.hit then p else p.(hit := true, canMove := false, currentDashTime := cfg.maxDashTime)
  }

  // ---------------------------------------------------------------- frames

  /** The landing block of Update: on the first grounded frame after being
      airborne, two jumps (the literal 2, not maxJumps) and the latch re-armed. */
  function Landed(p: PlayerState, f: FrameInput): (r: PlayerState)
    ensures f.grounded && !p.wasGrounded ==> r.canJump && r.jumpsRemaining == 2
    ensures !(f.grounded && !p.wasGrounded) ==> r == p
    ensures r.(canJump := p.canJump, jumpsRemaining := p.jumpsRemaining) == p
  {
    if f.grounded && !p.wasGrounded then p.(jumpsRemaining := 2, canJump := true) else p
  }

  /** Whether a dash is still running once this frame's Dash button is handled. */
  predicate DashRunsThisFrame(p: PlayerState, cfg: PlayerConfig, f: FrameInput)
  {
    (if f.dashDown && p.canDash then 0.0 else p.currentDashTime) < cfg.maxDashTime
  }

  /** Update(): one frame of the discrete behaviour. Its properties are the
      lemmas below. */
  function Frame(p: PlayerState, cfg: PlayerConfig, f: FrameInput): Outcome
  {
    var landed := Landed(p, f).(wasGrounded := f.grounded);
    if !landed.canMove then Outcome(Recover(landed, f), false)
    else if f.grounded then
      var o := OnGround(landed, cfg, f);
      if DashRunsThisFrame(p, cfg, f) || !f.damageKeyDown then o
      else Outcome(LosePercentage(o.next, cfg, 0.1), o.jumped)
    else
      var q := InAir(landed, cfg);
      Outcome(if f.damageKeyDown then LosePercentage(q, cfg, 0.1) else q, false)
  }

  /** The `!canMove` block: only a hit player who has settled recovers. */
  function Recover(p: PlayerState, f: FrameInput): (r: PlayerState)
    ensures r.hit != p.hit <==> p.hit && f.settled
    ensures r.hit != p.hit ==> !r.hit && r.canMove
    ensures r.hit == p.hit ==> r == p
    ensures r.(hit := p.hit, canMove := p.canMove) == p
  {
    if p.hit && f.settled then p.(hit := false, canMove := true) else p
  }

  /** The grounded block: the Dash button, a running dash (which ends the
      frame), then the Jump button. */
  function OnGround(p: PlayerState, cfg: PlayerConfig, f: FrameInput): (o: Outcome)
    ensures o.jumped <==> !DashRunsThisFrame(p, cfg, f) && f.jumpDown && p.canJump && p.jumpsRemaining > 0
    ensures o.jumped ==> !o.next.canJump && o.next.jumpsRemaining == p.jumpsRemaining - 1
    ensures !o.jumped ==> o.next.canJump == p.canJump && o.next.jumpsRemaining == p.jumpsRemaining
    ensures DashRunsThisFrame(p, cfg, f) ==>
              o.next.currentDashTime == (if f.dashDown && p.canDash then 0.0 else p.currentDashTime) + f.deltaTime &&
              o.next.canDash == (p.canDash && !f.dashDown)
    ensures !DashRunsThisFrame(p, cfg, f) ==>
              o.next.canDash && o.next.currentDashTime == (if f.dashDown && p.canDash then 0.0 else p.currentDashTime)
    ensures o.next.(canJump := p.canJump, jumpsRemaining := p.jumpsRemaining,
                    canDash := p.canDash, currentDashTime := p.currentDashTime) == p
  {
    var pressed := if f.dashDown && p.canDash then p.(currentDashTime := 0.0, canDash := false) else p;
    if Dashing(pressed, cfg) then
      Outcome(pressed.(currentDashTime := pressed.currentDashTime + f.deltaTime), false)
    else
      var ready := pressed.(canDash := true);
      if f.jumpDown && ready.canJump && ready.jumpsRemaining > 0 then
        Outcome(ready.(canJump := false, jumpsRemaining := ready.jumpsRemaining - 1), true)
      else Outcome(ready, false)
  }

  /** The airborne block: leaving the ground ends a running dash. */
  function InAir(p: PlayerState, cfg: PlayerConfig): (r: PlayerState)
    ensures !Dashing(r, cfg)
    ensures Dashing(p, cfg) ==> r.canDash && r.currentDashTime == cfg.maxDashTime
    ensures !Dashing(p, cfg) ==> r == p
    ensures r.(canDash := p.canDash, currentDashTime := p.currentDashTime) == p
  {
    if Dashing(p, cfg) then p.(currentDashTime := cfg.maxDashTime, canDash := true) else p
  }

  /** A landing re-arms the jump latch with two jumps. */
  lemma LandingRearmsJump(p: PlayerState, cfg: PlayerConfig, f: FrameInput)
    requires f.grounded && !p.wasGrounded
    ensures var r := Frame(p, cfg, f);
      r.next.wasGrounded &&
      r.next.canJump == !r.jumped && r.next.jumpsRemaining == (if r.jumped then 1 else 2)
  {
  }

  /** The jump gate: control, ground, no dash running, the button, the latch
      and a jump left; a jump takes one jump and disarms the latch. */
  lemma JumpGate(p: PlayerState, cfg: PlayerConfig, f: FrameInput)
    ensures var r := Frame(p, cfg, f);
      (r.jumped <==> p.canMove && f.grounded && !DashRunsThisFrame(p, cfg, f) && f.jumpDown &&
                     Landed(p, f).canJump && Landed(p, f).jumpsRemaining > 0) &&
      (r.jumped ==> !r.next.canJump && r.next.jumpsRemaining == Landed(p, f).jumpsRemaining - 1) &&
      (!r.jumped ==> r.next.canJump == Landed(p, f).canJump &&
                     r.next.jumpsRemaining == Landed(p, f).jumpsRemaining)
  {
  }

  /** Without control, nothing but the landing block and the recovery runs. */
  lemma NothingRunsWithoutControl(p: PlayerState, cfg: PlayerConfig, f: FrameInput)
    requires !p.canMove
    ensures var r := Frame(p, cfg, f);
      !r.jumped && r.next.canDash == p.canDash && r.next.currentDashTime == p.currentDashTime &&
      r.next.currentHealth == p.currentHealth && r.next.sceneLoads == p.sceneLoads
  {
  }

  /** A frame changes `hit` or `canMove` only by recovering, which clears the
      one and restores the other together. */
  lemma RecoveryRestoresBoth(p: PlayerState, cfg: PlayerConfig, f: FrameInput)
    ensures var r := Frame(p, cfg, f);
      r.next.hit != p.hit || r.next.canMove != p.canMove ==>
        !p.canMove && p.hit && f.settled && !r.next.hit && r.next.canMove
  {
  }

  /** A Dash press on the ground starts the timer (this frame already counts)
      and uses up the dash; leaving the ground ends a running dash. */
  lemma DashRules(p: PlayerState, cfg: PlayerConfig, f: FrameInput)
    ensures var r := Frame(p, cfg, f);
      (p.canMove && f.grounded && f.dashDown && p.canDash && 0.0 < cfg.maxDashTime ==>
         r.next.currentDashTime == f.deltaTime && !r.next.canDash && !r.jumped) &&
      (p.canMove && !f.grounded && Dashing(p, cfg) ==>
         r.next.currentDashTime == cfg.maxDashTime && r.next.canDash && !Dashing(r.next, cfg))
  {
  }

  /** The P key costs a tenth of the maximum health, on frames that get past
      the dash; nothing else in a frame touches health. */
  lemma DamageKeyCost(p: PlayerState, cfg: PlayerConfig, f: FrameInput)
    ensures Frame(p, cfg, f).next.currentHealth ==
              p.currentHealth - (if p.canMove && !(f.grounded && DashRunsThisFrame(p, cfg, f)) && f.damageKeyDown
                                 then cfg.maxHealth * 0.1 else 0.0)
  {
    var landed := Landed(p, f).(wasGrounded := f.grounded);
    assert landed.currentHealth == p.currentHealth;
    if p.canMove {
      if f.grounded {
        assert OnGround(landed, cfg, f).next.currentHealth == p.currentHealth;
      } else {
        assert InAir(landed, cfg).currentHealth == p.currentHealth;
      }
    }
  }

  // ---------------------------------------------------------------- runs

  /** The state after a run of frames. */
  function Final(p: PlayerState, cfg: PlayerConfig, frames: seq<FrameInput>): PlayerState
    decreases |frames|
  {
    if frames == [] then p else Final(Frame(p, cfg, frames[0]).next, cfg, frames[1..])
  }

  /** How many of the frames of a run made the player jump. */
  function Jumps(p: PlayerState, cfg: PlayerConfig, frames: seq<FrameInput>): nat
    decreases |frames|
  {
    if frames == [] then 0
    else
      var o := Frame(p, cfg, frames[0]);
      (if o.jumped then 1 else 0) + Jumps(o.next, cfg, frames[1..])
  }

  /** How many frames of a run are landings (grounded after an airborne frame). */
  function Landings(wasGrounded: bool, frames: seq<FrameInput>): nat
    decreases |frames|
  {
    if frames == [] then 0
    else (if frames[0].grounded && !wasGrounded then 1 else 0) + Landings(frames[0].grounded, frames[1..])
  }

  /** Each landing allows one jump, and a jump disarms the latch until the
      next landing: there is never a second (double) jump before touching
      down again. */
  lemma {:induction false} JumpsBoundedByLandings(p: PlayerState, cfg: PlayerConfig, frames: seq<FrameInput>)
    ensures Jumps(p, cfg, frames) <= (if p.canJump then 1 else 0) + Landings(p.wasGrounded, frames)
    decreases |frames|
  {
    if frames != [] {
      var o := Frame(p, cfg, frames[0]);
      JumpsBoundedByLandings(o.next, cfg, frames[1..]);
    }
  }

  /** After a jump, no further jump happens until a landing. */
  lemma NoJumpWithoutLanding(p: PlayerState, cfg: PlayerConfig, frames: seq<FrameInput>)
    requires !p.canJump && Landings(p.wasGrounded, frames) == 0
    ensures Jumps(p, cfg, frames) == 0
  {
    JumpsBoundedByLandings(p, cfg, frames);
  }

  /** The flags move together: control is lost exactly while hit. */
  predicate ControlMatchesHit(p: PlayerState)
  {
    p.canMove == !p.hit
  }

  lemma {:induction false} FramesKeepControlMatchesHit(p: PlayerState, cfg: PlayerConfig, frames: seq<FrameInput>)
    requires ControlMatchesHit(p)
    ensures ControlMatchesHit(Final(p, cfg, frames))
    decreases |frames|
  {
    if frames != [] {
      FramesKeepControlMatchesHit(Frame(p, cfg, frames[0]).next, cfg, frames[1..]);
    }
  }

  // ------------------------------------------------------------- the class

  class PlayerChunLi {
    const maxDashTime: real
    const maxHealth: real
    const maxJumps: int

    var canJump: bool
    var wasGrounded: bool
    var jumpsRemaining: int
    var hit: bool
    var canMove: bool
    var canDash: bool
    var currentDashTime: real
    var currentHealth: real
    var sceneLoads: seq<string>

    function State(): PlayerState
      reads this
    {
      PlayerState(canJump, wasGrounded, jumpsRemaining, hit, canMove, canDash, currentDashTime, currentHealth, sceneLoads)
    }

    function Cfg(): PlayerConfig
    {
      PlayerConfig(maxDashTime, maxHealth, maxJumps)
    }

    /** The field initialisers followed by Awake: no dash running, `maxJumps`
        jumps available. */
    constructor (maxDashTime: real, maxHealth: real, maxJumps: int)
      ensures Cfg() == PlayerConfig(maxDashTime, maxHealth, maxJumps)
      ensures State() == PlayerState(true, false, maxJumps, false, true, true, maxDashTime, 100.0, [])
      ensures ControlMatchesHit(State()) && !IsDashing()
    {
      this.maxDashTime := maxDashTime;
      this.maxHealth := maxHealth;
      this.maxJumps := maxJumps;
      canJump := true;
      wasGrounded := false;
      hit := false;
      canMove := true;
      canDash := true;
      currentHealth := 100.0;
      sceneLoads := [];
      currentDashTime := maxDashTime;
      jumpsRemaining := maxJumps;
    }

    predicate IsDashing()
      reads this
      ensures IsDashing() <==> currentDashTime < maxDashTime
    {
      Dashing(State(), Cfg())
    }

    function GetHealthPercentage(): (r: real)
      reads this
      requires maxHealth != 0.0
      ensures r * maxHealth == currentHealth
      ensures 0.0 < maxHealth && 0.0 <= currentHealth <= maxHealth ==> 0.0 <= r <= 1.0
    {
      currentHealth / maxHealth
    }

    method Update(f: FrameInput) returns (jumped: bool)
      modifies this
      ensures State() == Frame(old(State()), Cfg(), f).next
      ensures jumped == Frame(old(State()), Cfg(), f).jumped
    {
      jumped := false;
      LandingBlock(f);
      if !canMove {
        if hit {
          if f.settled {
            hit := false;
            canMove := true;
          }
        }
        return;
      }
      if f.grounded {
        var dashing;
        jumped, dashing := GroundBlock(f);
        if dashing {
          return;
        }
      } else {
        AirBlock();
      }
      if f.damageKeyDown {
        TakeDamagePercentage(0.1);
      }
    }

    /** The start of Update: the first grounded frame after being airborne
        re-arms the jump. (The airborne branch only clears wasGrounded, which
        is overwritten right after.) */
    method LandingBlock(f: FrameInput)
      modifies this
      ensures State() == Landed(old(State()), f).(wasGrounded := f.grounded)
    {
      if f.grounded {
        if !wasGrounded {
          jumpsRemaining := 2;
          canJump := true;
        }
      }
      wasGrounded := f.grounded;
    }

    /** The grounded part of Update once the player has control; `dashing`
        says that a running dash ended the frame early. */
    method GroundBlock(f: FrameInput) returns (jumped: bool, dashing: bool)
      modifies this
      ensures State() == OnGround(old(State()), Cfg(), f).next
      ensures jumped == OnGround(old(State()), Cfg(), f).jumped
      ensures dashing == DashRunsThisFrame(old(State()), Cfg(), f)
    {
      jumped := false;
      if f.dashDown && canDash {
        currentDashTime := 0.0;
        canDash := false;
      }
      dashing := currentDashTime < maxDashTime;
      if dashing {
        currentDashTime := currentDashTime + f.deltaTime;
        return;
      }
      canDash := true;
      if f.jumpDown && canJump {
        if jumpsRemaining > 0 {
          canJump := false;
          jumpsRemaining := jumpsRemaining - 1;
          jumped := true;
        }
      }
    }

    /** The airborne part of Update: a dash in progress is cancelled. */
    method AirBlock()
      modifies this
      ensures State() == InAir(old(State()), Cfg())
    {
      if currentDashTime < maxDashTime {
        currentDashTime := maxDashTime;
        canDash := true;
      }
    }

    method CheckGameOver()
      modifies this`sceneLoads
      ensures sceneLoads == old(sceneLoads) + if currentHealth <= 0.0 then [GameOverScene] else []
    {
      if currentHealth <= 0.0 {
        sceneLoads := sceneLoads + [GameOverScene];
      }
    }

    /** ApplyDMG(float) */
    method ApplyDmg(damage: real)
      modifies this
      ensures State() == LoseHealth(old(State()), damage)
    {
      currentHealth := currentHealth - damage;
      CheckGameOver();
    }

    method TakeDamage(damage: real)
      modifies this
      ensures State() == LoseHealth(old(State()), damage)
    {
      currentHealth := currentHealth - damage;
      CheckGameOver();
    }

    method TakeDamagePercentage(percentage: real)
      modifies this
      ensures State() == LosePercentage(old(State()), Cfg(), percentage)
    {
      var damage := maxHealth * percentage;
      currentHealth := currentHealth - damage;
      if currentHealth <= 0.0 {
        sceneLoads := sceneLoads + [GameOverScene];
      }
    }

    /** ApplyDMG(Vector3 dir, float force); the knock-back impulse is not modelled. */
    method ApplyDmgImpact()
      modifies this
      ensures State() == HitBy(old(State()), Cfg())
      ensures old(hit) ==> unchanged(this)
    {
      if !hit {
        hit := true;
        canMove := false;
        currentDashTime := maxDashTime;
      }
    }
  }
}
