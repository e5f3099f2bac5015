/** The boss event's server-side state machine (`BossEventDirector`).

    The timer runs while no event is active; once it reaches the configured
    duration the event starts. Defeating the boss, or a player dying to it,
    ends the event and restarts the timer. The enemy spawner's running state,
    and the number of bosses alive, stand for the calls the director makes on
    other components; cameras, teleports and the PvP director are not
    modelled. */
module BossEvents {

  /** The director's timer and event flag. */
  datatype BossTimer = BossTimer(currentTimer: real, isEventActive: bool)

  /** One server frame of `dt` seconds: an inactive event's timer advances, and the event
      starts once the timer has reached `duration`; an active event leaves everything as it is. */
  function Tick(s: BossTimer, dt: real, duration: real): (next: BossTimer)
    ensures s.isEventActive ==> next == s
    ensures !s.isEventActive ==> (next.isEventActive <==> s.currentTimer + dt >= duration)
    ensures !s.isEventActive && dt >= 0.0 ==> next.currentTimer >= s.currentTimer
    ensures !s.isEventActive && 0.0 <= s.currentTimer && dt >= 0.0 && !next.isEventActive ==>
      0.0 <= next.currentTimer < duration
  {
    if s.isEventActive then s
    else
      var t := s.currentTimer + dt;
      BossTimer(t, t >= duration)
  }

  /** Frames one after another. */
  function Run(s: BossTimer, dts: seq<real>, duration: real): BossTimer
    decreases |dts|
  {
    if dts == [] then s else Run(Tick(s, dts[0], duration), dts[1..], duration)
  }

  /** The total length of the frames. */
  function Sum(dts: seq<real>): real
    decreases |dts|
  {
    if dts == [] then 0.0 else dts[0] + Sum(dts[1..])
  }

  predicate AllNonNegative(dts: seq<real>)
  {
    forall i :: 0 <= i < |dts| ==> dts[i] >= 0.0
  }

  /** Over frames of non-negative length, an inactive event (whose timer is still below
      the duration) has started by the end exactly when the total elapsed time has brought
      the timer to the duration; while it has not, the timer holds exactly the elapsed
      time. Once started, it stays started and its timer stops. */
  lemma {:induction false} RunStartsWhenDue(s: BossTimer, dts: seq<real>, duration: real)
    requires AllNonNegative(dts)
    requires !s.isEventActive ==> s.currentTimer < duration
    decreases |dts|
    ensures !s.isEventActive ==> (Run(s, dts, duration).isEventActive <==> s.currentTimer + Sum(dts) >= duration)
    ensures !s.isEventActive && !Run(s, dts, duration).isEventActive ==>
      Run(s, dts, duration).currentTimer == s.currentTimer + Sum(dts)
    ensures s.isEventActive ==> Run(s, dts, duration) == s
  {
    if dts != [] {
      var next := Tick(s, dts[0], duration);
      assert AllNonNegative(dts[1..]) by {
        forall i | 0 <= i < |dts[1..]| ensures dts[1..][i] >= 0.0 {
          assert dts[1..][i] == dts[i + 1];
        }
      }
      RunStartsWhenDue(next, dts[1..], duration);
      SumNonNegative(dts[1..]);
    }
  }

  lemma {:induction false} SumNonNegative(dts: seq<real>)
    requires AllNonNegative(dts)
    decreases |dts|
    ensures Sum(dts) >= 0.0
  {
    if dts != [] {
      assert AllNonNegative(dts[1..]) by {
        forall i | 0 <= i < |dts[1..]| ensures dts[1..][i] >= 0.0 {
          assert dts[1..][i] == dts[i + 1];
        }
      }
      SumNonNegative(dts[1..]);
    }
  }

  class BossEventDirector {
    const isServer: bool
    const bossTimerDuration: real
    /** Whether the main enemy spawner is assigned. */
    const hasEnemySpawner: bool

    var currentTimer: real
    var isEventActive: bool
    /** Whether the main enemy spawner is spawning. */
    ghost var spawnerRunning: bool
    /** The bosses spawned and not yet despawned by the director. */
    ghost var bossesAlive: nat

    /** On the server, an event that is not active has its timer below the duration. */
    ghost predicate Valid()
      reads this
    {
      isServer && !isEventActive ==> 0.0 <= currentTimer < bossTimerDuration
    }

    /** `Awake`, with the fields at their defaults: no event, timer at zero. */
    constructor (isServer: bool, bossTimerDuration: real, hasEnemySpawner: bool, spawnerRunning: bool)
      ensures this.isServer == isServer && this.bossTimerDuration == bossTimerDuration
      ensures this.hasEnemySpawner == hasEnemySpawner && this.spawnerRunning == spawnerRunning
      ensures currentTimer == 0.0 && !isEventActive && bossesAlive == 0
      ensures 0.0 < bossTimerDuration ==> Valid()
    {
      this.isServer := isServer;
      this.bossTimerDuration := bossTimerDuration;
      this.hasEnemySpawner := hasEnemySpawner;
      this.spawnerRunning := spawnerRunning;
      currentTimer := 0.0;
      isEventActive := false;
      bossesAlive := 0;
    }

    /** On the server: timer at zero, no event. */
    method OnNetworkSpawn()
      modifies this`currentTimer, this`isEventActive
      ensures isServer ==> currentTimer == 0.0 && !isEventActive
      ensures !isServer ==> currentTimer == old(currentTimer) && isEventActive == old(isEventActive)
      ensures 0.0 < bossTimerDuration ==> Valid()
    {
      if isServer {
        currentTimer := 0.0;
        isEventActive := false;
      }
    }

    /** One frame of `dt` seconds. Off the server or during an event nothing happens;
        otherwise the timer advances and the event starts when it reaches the duration. */
    method Update(dt: real)
      requires dt >= 0.0
      modifies this`currentTimer, this`isEventActive, this`spawnerRunning, this`bossesAlive
      ensures old(Valid()) ==> Valid()
      ensures !isServer || old(isEventActive) ==>
        && currentTimer == old(currentTimer) && isEventActive == old(isEventActive)
        && spawnerRunning == old(spawnerRunning) && bossesAlive == old(bossesAlive)
      ensures isServer ==>
        BossTimer(currentTimer, isEventActive) == Tick(BossTimer(old(currentTimer), old(isEventActive)), dt, bossTimerDuration)
      ensures isServer && !old(isEventActive) && isEventActive ==> EventStarted(old(spawnerRunning), old(bossesAlive))
      ensures isServer && !old(isEventActive) && !isEventActive ==>
        spawnerRunning == old(spawnerRunning) && bossesAlive == old(bossesAlive)
    {
      if !isServer || isEventActive {
        return;
      }
      currentTimer := currentTimer + dt;
      if currentTimer >= bossTimerDuration {
        StartBossEvent();
      }
    }

    /** Start the event now, on the server, unless one is running. */
    method ForceStartEvent()
      modifies this`isEventActive, this`spawnerRunning, this`bossesAlive
      ensures isServer && !old(isEventActive) ==> isEventActive && EventStarted(old(spawnerRunning), old(bossesAlive))
      ensures !(isServer && !old(isEventActive)) ==>
        isEventActive == old(isEventActive) && spawnerRunning == old(spawnerRunning) && bossesAlive == old(bossesAlive)
    {
      if isServer && !isEventActive {
        StartBossEvent();
      }
    }

    /** What starting the event does to the spawner and the bosses: the spawner, when
        assigned, stops, and one boss is spawned. */
    ghost predicate EventStarted(spawnerBefore: bool, bossesBefore: nat)
      reads this
    {
      && spawnerRunning == (if hasEnemySpawner then false else spawnerBefore)
      && bossesAlive == bossesBefore + 1
    }

    method StartBossEvent()
      modifies this`isEventActive, this`spawnerRunning, this`bossesAlive
      ensures isEventActive && EventStarted(old(spawnerRunning), old(bossesAlive))
    {
      isEventActive := true;
      if hasEnemySpawner {
        spawnerRunning := false;
      }
      bossesAlive := bossesAlive + 1;
    }

    /** The boss died: on the server the event ends, the timer restarts from zero and
        the spawner, when assigned, resumes. */
    method OnBossDefeated()
      modifies this`isEventActive, this`currentTimer, this`spawnerRunning
      ensures isServer ==> !isEventActive && currentTimer == 0.0
      ensures isServer ==> spawnerRunning == (if hasEnemySpawner then true else old(spawnerRunning))
      ensures !isServer ==>
        isEventActive == old(isEventActive) && currentTimer == old(currentTimer) && spawnerRunning == old(spawnerRunning)
      ensures 0.0 < bossTimerDuration ==> Valid()
    {
      if !isServer {
        return;
      }
      isEventActive := false;
      currentTimer := 0.0;
      if hasEnemySpawner {
        spawnerRunning := true;
      }
    }

    /** A player died to the boss: as for a defeat, and every spawned boss is despawned. */
    method ResetBossEventOnPlayerDeath()
      modifies this`isEventActive, this`currentTimer, this`spawnerRunning, this`bossesAlive
      ensures isServer ==> !isEventActive && currentTimer == 0.0 && bossesAlive == 0
      ensures isServer ==> spawnerRunning == (if hasEnemySpawner then true else old(spawnerRunning))
      ensures !isServer ==>
        && isEventActive == old(isEventActive) && currentTimer == old(currentTimer)
        && spawnerRunning == old(spawnerRunning) && bossesAlive == old(bossesAlive)
      ensures 0.0 < bossTimerDuration ==> Valid()
    {
      if !isServer {
        return;
      }
      isEventActive := false;
      currentTimer := 0.0;
      if hasEnemySpawner {
        spawnerRunning := true;
      }
      bossesAlive := 0;
    }
  }
}
