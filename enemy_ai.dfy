/** AISimple: the enemy's five-state behaviour machine, its invincibility-gated
    damage handler and its patrol-point bookkeeping. The engine's geometric
    queries (vision cone, melee range, path state, distances to the patrol
    points), `Random.Range` and `Time.deltaTime` are inputs to each frame. */
module EnemyAI {
  import opened Int32

  /** AISimple.STATE */
  datatype State = Idle | Patrol | Chase | MeleeAttack | Hit

  /** What one `Update` frame reads from the engine. */
  datatype Senses = Senses(
    canSeePlayer: bool,     // CanSeePlayer(): closer than 10 and within 90 degrees
    canAttackPlayer: bool,  // CanAttackPlayer(): closer than 1.5
    canStopChase: bool,     // CanStopChase(): farther than 10
    hasPath: bool,          // agent.hasPath
    nearWaypoint: bool,     // agent.remainingDistance < 1
    roll: int,              // Random.Range(0, 100)
    deltaTime: real,        // Time.deltaTime
    distances: seq<real>)   // distance to each patrol point, in list order

  /** The mutable fields of AISimple that the behaviour depends on. */
  datatype Enemy = Enemy(
    state: State,
    patrolIndex: int,
    waitTimer: real,
    invincible: bool,
    canAttack: bool,
    health: int32,
    destroyed: bool)

  /** The inspector-set values: the number of patrol points, `attackTime`,
      `maxHealth`. */
  datatype Config = Config(patrolCount: nat, attackTime: real, maxHealth: int32)

  // ---------------------------------------------------------------- patrol

  /** The index PATROL moves to when the current waypoint is reached: the next
      point in the list, wrapping to the first after the last. */
  function NextPatrolIndex(index: int, count: int): (r: int)
    ensures 0 < count && -1 <= index ==> 0 <= r < count
    ensures index < count - 1 ==> r == index + 1
    ensures index >= count - 1 ==> r == 0
  {
    if index >= count - 1 then 0 else index + 1
  }

  /** `k` waypoint arrivals in a row. */
  function AdvanceBy(index: int, count: int, k: nat): int
  {
    if k == 0 then index else NextPatrolIndex(AdvanceBy(index, count, k - 1), count)
  }

  /** Arrival number k leads to point (index + k) mod count: the enemy walks
      the list cyclically and visits every point. */
  lemma {:induction false} AdvanceByCycles(index: int, count: int, k: nat)
    requires 0 <= index < count
    ensures AdvanceBy(index, count, k) == (index + k) % count
  {
    if k > 0 {
      AdvanceByCycles(index, count, k - 1);
      NextOfRemainder(index + k - 1, count);
    }
  }

  /** Advancing from the remainder of x gives the remainder of x + 1. */
  lemma NextOfRemainder(x: int, count: int)
    requires count > 0
    ensures NextPatrolIndex(x % count, count) == (x + 1) % count
  {
    var q, m := x / count, x % count;
    assert x == q * count + m;
    if m == count - 1 {
      assert x + 1 == (q + 1) * count + 0;
      DivModUnique(x + 1, q + 1, count, 0);
    } else {
      DivModUnique(x + 1, q, count, m + 1);
    }
  }

  /** Euclidean division is determined by quotient and remainder. */
  lemma DivModUnique(y: int, q: int, c: int, r: int)
    requires c > 0 && 0 <= r < c && y == q * c + r
    ensures y % c == r
  {
    var q', r' := y / c, y % c;
    assert (q - q') * c == r' - r;
    if q' < q {
      assert (q - q') * c >= c by { MulAtLeast(q - q', c); }
    } else if q < q' {
      assert (q' - q) * c >= c by { MulAtLeast(q' - q, c); }
    }
  }

  lemma MulAtLeast(a: int, c: int)
    requires a >= 1 && c > 0
    ensures a * c >= c
  {
  }

  /** After `count` arrivals the enemy is back at the point it started from. */
  lemma FullCircuit(index: int, count: int)
    requires 0 <= index < count
    ensures AdvanceBy(index, count, count) == index
  {
    AdvanceByCycles(index, count, count);
    DivModUnique(index + count, 1, count, index);
  }

  /** `k` holds the first of the strictly smallest distances. */
  ghost predicate IsNearest(d: seq<real>, k: int)
  {
    0 <= k < |d| &&
    (forall j :: 0 <= j < |d| ==> d[k] <= d[j]) &&
    (forall j :: 0 <= j < k ==> d[k] < d[j])
  }

  /** The nearest patrol point, earliest in the list on a tie. */
  function Nearest(d: seq<real>): (k: nat)
    requires |d| > 0
    ensures IsNearest(d, k)
    decreases |d|
  {
    if |d| == 1 then 0
    else
      var k := Nearest(d[..|d| - 1]);
      if d[|d| - 1] < d[k] then |d| - 1 else k
  }

  /** The loop of ChangeState(PATROL): scan the distances keeping the smallest
      seen (starting from infinity) and set the index one before it, so that
      the next waypoint arrival targets the nearest point. */
  method NearestPatrolScan(distances: seq<real>, current: int) returns (index: int)
    ensures |distances| == 0 ==> index == current
    ensures |distances| > 0 ==> IsNearest(distances, index + 1) && index == Nearest(distances) - 1
  {
    index := current;
    var lastDist: real := 0.0;
    var finite := false;  // lastDist is still Mathf.Infinity while false
    for i := 0 to |distances|
      invariant finite <==> i > 0
      invariant i == 0 ==> index == current
      invariant i > 0 ==> index + 1 == Nearest(distances[..i]) && lastDist == distances[index + 1]
    {
      if !finite || distances[i] < lastDist {
        index := i - 1;
        lastDist := distances[i];
        finite := true;
      }
      assert distances[..i + 1][..i] == distances[..i];
    }
    assert distances[..|distances|] == distances;
  }

  /** The patrol index stays within the list whenever the list is not empty
      (with an empty list it can only be -1 or 0). */
  predicate PatrolIndexOk(index: int, count: nat)
  {
    -1 <= index && index <= (if count == 0 then 0 else count - 1)
  }

  // --------------------------------------------------------- state changes

  /** ChangeState(s): the entry actions of `s` (exit actions only touch the
      animator), then the state itself. */
  function Enter(e: Enemy, s: State, distances: seq<real>): (r: Enemy)
    ensures r.state == s
    ensures s == MeleeAttack || s == Hit ==> r.waitTimer == 0.0
    ensures s != MeleeAttack && s != Hit ==> r.waitTimer == e.waitTimer
    ensures s == Patrol && |distances| > 0 ==> IsNearest(distances, r.patrolIndex + 1)
    ensures s != Patrol || |distances| == 0 ==> r.patrolIndex == e.patrolIndex
    ensures r.invincible == e.invincible && r.canAttack == e.canAttack
    ensures r.health == e.health && r.destroyed == e.destroyed
  {
    var timer := if s == MeleeAttack || s == Hit then 0.0 else e.waitTimer;
    var index := if s == Patrol && |distances| > 0 then Nearest(distances) - 1 else e.patrolIndex;
    e.(state := s, waitTimer := timer, patrolIndex := index)
  }

  lemma EnterKeepsPatrolIndexOk(e: Enemy, s: State, distances: seq<real>, count: nat)
    requires PatrolIndexOk(e.patrolIndex, count)
    requires s == Patrol ==> |distances| == count
    ensures PatrolIndexOk(Enter(e, s, distances).patrolIndex, count)
  {
  }

  /** ApplyDmg(dmgInfo): ignored while invincible; otherwise the enemy becomes
      invincible, enters HIT and loses `dmgValue` health (32-bit), and it is
      destroyed when its health reaches 0 or below. */
  function Damage(e: Enemy, dmgValue: int32): (r: Enemy)
    ensures e.invincible ==> r == e
    ensures !e.invincible ==> r.invincible && r.state == Hit && r.waitTimer == 0.0
    ensures !e.invincible ==> r.health == Sub(e.health, dmgValue)
    ensures !e.invincible ==> r.patrolIndex == e.patrolIndex && r.canAttack == e.canAttack
    ensures r.destroyed <==> e.destroyed || (!e.invincible && r.health <= 0)
  {
    if e.invincible then e
    else
      var hit := Enter(e.(invincible := true), Hit, []);
      var hurt := hit.(health := Sub(hit.health, dmgValue));
      hurt.(destroyed := hurt.destroyed || hurt.health <= 0)
  }

  /** Damage applied several times in a row (say, by overlapping weapon
      colliders) before any frame has run. */
  function DamageAll(e: Enemy, dmgs: seq<int32>): Enemy
    decreases |dmgs|
  {
    if dmgs == [] then e else DamageAll(Damage(e, dmgs[0]), dmgs[1..])
  }

  /** Only the first of a burst of hits lands: the invincibility it grants
      swallows the rest. */
  lemma {:induction false} OnlyFirstHitLands(e: Enemy, dmgs: seq<int32>)
    requires !e.invincible && |dmgs| > 0
    ensures DamageAll(e, dmgs) == Damage(e, dmgs[0])
  {
    InvincibleIgnoresAll(Damage(e, dmgs[0]), dmgs[1..]);
  }

  lemma {:induction false} InvincibleIgnoresAll(e: Enemy, dmgs: seq<int32>)
    requires e.invincible
    ensures DamageAll(e, dmgs) == e
    decreases |dmgs|
  {
    if dmgs != [] {
      InvincibleIgnoresAll(Damage(e, dmgs[0]), dmgs[1..]);
    }
  }

  // ---------------------------------------------------------------- frames

  /** Update(): one frame of the behaviour. In PATROL, reaching the waypoint
      with an empty patrol list indexes `patrolPoints[0]`, which throws: the
      rest of that frame does not run. */
  function Step(e: Enemy, cfg: Config, obs: Senses): (r: Enemy)
    // IDLE and PATROL chase a player they can see
    ensures e.state == Idle ==>
              r.state == (if obs.canSeePlayer then Chase else if obs.roll < 10 then Patrol else Idle)
    ensures e.state == Patrol && !obs.nearWaypoint ==>
              r.state == (if obs.canSeePlayer then Chase else Patrol)
    ensures e.state == Patrol && obs.nearWaypoint && cfg.patrolCount > 0 && e.patrolIndex >= -1 ==>
              r.patrolIndex == NextPatrolIndex(e.patrolIndex, cfg.patrolCount) &&
              0 <= r.patrolIndex < cfg.patrolCount &&
              r.state == (if obs.canSeePlayer then Chase else Patrol)
    // an empty list throws at the waypoint: the index moves to 0 and nothing
    // else happens that frame, not even the chase of a visible player
    ensures e.state == Patrol && obs.nearWaypoint && cfg.patrolCount == 0 && e.patrolIndex >= -1 ==>
              r == e.(patrolIndex := 0)
    // CHASE with a path: attack when in range, otherwise give up when far
    ensures e.state == Chase ==>
              r.state == (if !obs.hasPath then Chase
                          else if obs.canAttackPlayer then MeleeAttack
                          else if obs.canStopChase then Patrol
                          else Chase)
    // MELEEATTACK lasts attackTime
    ensures e.state == MeleeAttack ==>
              (r.state != MeleeAttack <==> e.waitTimer + obs.deltaTime >= cfg.attackTime) &&
              (r.state != MeleeAttack ==> r.state == (if obs.canAttackPlayer then Chase else Patrol))
    // HIT: invincibility ends at 0.5, the state itself at 1.25 on a later frame
    ensures e.state == Hit && e.invincible && e.waitTimer + obs.deltaTime >= 0.5 ==>
              r.state == Hit && !r.invincible && !r.canAttack
    ensures e.state == Hit ==>
              (r.state != Hit <==> !e.invincible && e.waitTimer + obs.deltaTime >= 1.25) &&
              (r.state != Hit ==> r.state == (if e.canAttack && obs.canAttackPlayer then Chase else Patrol))
    // only HIT clears invincibility and attack permission; frames never touch health
    ensures r.invincible != e.invincible || r.canAttack != e.canAttack ==>
              e.state == Hit && e.invincible && !r.invincible && !r.canAttack
    ensures r.health == e.health && r.destroyed == e.destroyed
  {
    match e.state
    case Idle =>
      if obs.canSeePlayer then Enter(e, Chase, obs.distances)
      else if obs.roll < 10 then Enter(e, Patrol, obs.distances)
      else e
    case Patrol =>
      var moved := if obs.nearWaypoint then e.(patrolIndex := NextPatrolIndex(e.patrolIndex, cfg.patrolCount)) else e;
      if obs.nearWaypoint && !(0 <= moved.patrolIndex < cfg.patrolCount) then moved
      else if obs.canSeePlayer then Enter(moved, Chase, obs.distances)
      else moved
    case Chase =>
      if obs.hasPath && obs.canAttackPlayer then Enter(e, MeleeAttack, obs.distances)
      else if obs.hasPath && obs.canStopChase then Enter(e, Patrol, obs.distances)
      else e
    case MeleeAttack =>
      var timed := e.(waitTimer := e.waitTimer + obs.deltaTime);
      if timed.waitTimer >= cfg.attackTime then
        Enter(timed, if obs.canAttackPlayer then Chase else Patrol, obs.distances)
      else timed
    case Hit =>
      var timed := e.(waitTimer := e.waitTimer + obs.deltaTime);
      if timed.waitTimer < 0.5 then timed
      else if timed.invincible then timed.(invincible := false, canAttack := false)
      else if timed.waitTimer >= 1.25 then
        Enter(timed, if obs.canAttackPlayer && timed.canAttack then Chase else Patrol, obs.distances)
      else timed
  }

  /** Senses whose distance list matches the patrol list. */
  predicate Fits(obs: Senses, cfg: Config)
  {
    |obs.distances| == cfg.patrolCount
  }

  lemma StepKeepsPatrolIndexOk(e: Enemy, cfg: Config, obs: Senses)
    requires PatrolIndexOk(e.patrolIndex, cfg.patrolCount) && Fits(obs, cfg)
    ensures PatrolIndexOk(Step(e, cfg, obs).patrolIndex, cfg.patrolCount)
  {
  }

  /** A run of frames. */
  function Run(e: Enemy, cfg: Config, frames: seq<Senses>): Enemy
    requires forall i :: 0 <= i < |frames| ==> Fits(frames[i], cfg)
    decreases |frames|
  {
    if frames == [] then e else Run(Step(e, cfg, frames[0]), cfg, frames[1..])
  }

  /** However long the enemy runs, its patrol index never leaves the list. */
  lemma {:induction false} RunKeepsPatrolIndexOk(e: Enemy, cfg: Config, frames: seq<Senses>)
    requires PatrolIndexOk(e.patrolIndex, cfg.patrolCount)
    requires forall i :: 0 <= i < |frames| ==> Fits(frames[i], cfg)
    ensures PatrolIndexOk(Run(e, cfg, frames).patrolIndex, cfg.patrolCount)
    decreases |frames|
  {
    if frames != [] {
      StepKeepsPatrolIndexOk(e, cfg, frames[0]);
      RunKeepsPatrolIndexOk(Step(e, cfg, frames[0]), cfg, frames[1..]);
    }
  }

  /** Total frame time of a run. */
  function Elapsed(frames: seq<Senses>): real
    decreases |frames|
  {
    if frames == [] then 0.0 else frames[0].deltaTime + Elapsed(frames[1..])
  }

  lemma {:induction false} ElapsedNonNegative(frames: seq<Senses>)
    requires forall i :: 0 <= i < |frames| ==> frames[i].deltaTime >= 0.0
    ensures Elapsed(frames) >= 0.0
    decreases |frames|
  {
    if frames != [] {
      ElapsedNonNegative(frames[1..]);
    }
  }

  /** The invincibility window: until half a second has elapsed on the HIT
      timer, the enemy stays in HIT, invincible, its timer counting the
      elapsed time. */
  lemma {:induction false} InvincibleWindow(e: Enemy, cfg: Config, frames: seq<Senses>)
    requires e.state == Hit && e.invincible
    requires forall i :: 0 <= i < |frames| ==> Fits(frames[i], cfg) && frames[i].deltaTime >= 0.0
    requires e.waitTimer + Elapsed(frames) < 0.5
    ensures Run(e, cfg, frames) == e.(waitTimer := e.waitTimer + Elapsed(frames))
    decreases |frames|
  {
    if frames != [] {
      ElapsedNonNegative(frames[1..]);
      var next := Step(e, cfg, frames[0]);
      assert next == e.(waitTimer := e.waitTimer + frames[0].deltaTime);
      InvincibleWindow(next, cfg, frames[1..]);
    }
  }

  /** The first frame after a hit that lands ends in HIT, whatever it senses. */
  lemma HitOutlastsOneFrame(e: Enemy, cfg: Config, dmgValue: int32, obs: Senses)
    requires !e.invincible
    ensures Step(Damage(e, dmgValue), cfg, obs).state == Hit
  {
  }

  // ------------------------------------------------------------- the class

  class AISimple {
    const patrolCount: nat
    const attackTime: real
    const maxHealth: int32

    var currState: State
    var curPatrolIndex: int
    var waitTimer: real
    var isInvincible: bool
    var canAttack: bool
    var currentHealth: int32
    /** Destroy(gameObject) has been requested (Die). */
    var destroyed: bool

    function Snapshot(): Enemy
      reads this
    {
      Enemy(currState, curPatrolIndex, waitTimer, isInvincible, canAttack, currentHealth, destroyed)
    }

    function Cfg(): Config
    {
      Config(patrolCount, attackTime, maxHealth)
    }

    ghost predicate Valid()
      reads this
    {
      PatrolIndexOk(curPatrolIndex, patrolCount)
    }

    /** The field initialisers (IDLE, index -1, not invincible, may attack);
        `currentHealth` is C#'s default 0 until `Start`. */
    constructor (patrolCount: nat, attackTime: real, maxHealth: int32)
      ensures Valid()
      ensures Snapshot() == Enemy(Idle, -1, 0.0, false, true, 0, false)
      ensures Cfg() == Config(patrolCount, attackTime, maxHealth)
    {
      this.patrolCount := patrolCount;
      this.attackTime := attackTime;
      this.maxHealth := maxHealth;
      currState := Idle;
      curPatrolIndex := -1;
      waitTimer := 0.0;
      isInvincible := false;
      canAttack := true;
      currentHealth := 0;
      destroyed := false;
    }

    /** An enemy with patrol points starts out patrolling towards the nearest. */
    method Awake(distances: seq<real>)
      requires Valid() && |distances| == patrolCount
      modifies this
      ensures Valid()
      ensures Snapshot() == if patrolCount != 0 then Enter(old(Snapshot()), Patrol, distances) else old(Snapshot())
      ensures patrolCount != 0 ==> currState == Patrol && IsNearest(distances, curPatrolIndex + 1)
    {
      if patrolCount != 0 {
        ChangeState(Patrol, distances);
      }
    }

    method Start()
      modifies this
      ensures Snapshot() == old(Snapshot()).(health := maxHealth)
    {
      currentHealth := maxHealth;
    }

    method ChangeState(newState: State, distances: seq<real>)
      requires Valid() && (newState == Patrol ==> |distances| == patrolCount)
      modifies this
      ensures Valid()
      ensures Snapshot() == Enter(old(Snapshot()), newState, distances)
    {
      match newState {
        case Patrol =>
          curPatrolIndex := NearestPatrolScan(distances, curPatrolIndex);
        case MeleeAttack =>
          waitTimer := 0.0;
        case Hit =>
          waitTimer := 0.0;
        case _ =>
      }
      currState := newState;
    }

    method ApplyDmg(dmgValue: int32)
      requires Valid()
      modifies this
      ensures Valid()
      ensures Snapshot() == Damage(old(Snapshot()), dmgValue)
      ensures old(isInvincible) ==> unchanged(this)
    {
      if !isInvincible {
        isInvincible := true;
        ChangeState(Hit, []);
        currentHealth := Sub(currentHealth, dmgValue);
        if currentHealth <= 0 {
          destroyed := true;
        }
      }
    }

    /** The end of the EnableAttackAfterSeconds(2) coroutine, an engine event. */
    method EnableAttack()
      modifies this
      ensures Snapshot() == old(Snapshot()).(canAttack := true)
    {
      canAttack := true;
    }

    method Update(obs: Senses)
      requires Valid() && Fits(obs, Cfg())
      modifies this
      ensures Valid()
      ensures Snapshot() == Step(old(Snapshot()), Cfg(), obs)
    {
      match currState
      case Idle =>
        if obs.canSeePlayer {
          ChangeState(Chase, obs.distances);
        } else if obs.roll < 10 {
          ChangeState(Patrol, obs.distances);
        }
      case Patrol =>
        if obs.nearWaypoint {
          if curPatrolIndex >= patrolCount - 1 {
            curPatrolIndex := 0;
          } else {
            curPatrolIndex := curPatrolIndex + 1;
          }
          if !(0 <= curPatrolIndex < patrolCount) {
            return;  // patrolPoints[curPatrolIndex] throws
          }
        }
        if obs.canSeePlayer {
          ChangeState(Chase, obs.distances);
        }
      case Chase =>
        if obs.hasPath {
          if obs.canAttackPlayer {
            ChangeState(MeleeAttack, obs.distances);
          } else if obs.canStopChase {
            ChangeState(Patrol, obs.distances);
          }
        }
      case MeleeAttack =>
        waitTimer := waitTimer + obs.deltaTime;
        if waitTimer >= attackTime {
          if obs.canAttackPlayer {
            ChangeState(Chase, obs.distances);
          } else {
            ChangeState(Patrol, obs.distances);
          }
        }
      case Hit =>
        waitTimer := waitTimer + obs.deltaTime;
        // below 0.5 the enemy only turns towards the player
        if waitTimer >= 0.5 && isInvincible {
          isInvincible := false;
          canAttack := false;
        } else if waitTimer >= 1.25 {
          if obs.canAttackPlayer && canAttack {
            ChangeState(Chase, obs.distances);
          } else {
            ChangeState(Patrol, obs.distances);
          }
        }
    }
  }
}
