/** Random events: when an event is active and how likely it is to fire (EventData), and
    the manager that periodically adds one to the running list and counts down the running
    ones, activating each whenever its own cooldown runs out (EventManager). */
module Events {
  import opened Common

  /** EventData, reduced to what the rules read: probability and luck factor (both default
      1), the start delay activeAfter (default 0) and the duration inherited from SpawnData.
      The id tells apart two events with equal settings. */
  datatype EventData = EventData(id: nat, probability: real, luckFactor: real, activeAfter: real, duration: real)

  /** IsActive: never without a game manager, otherwise once the run is older than
      activeAfter. */
  predicate IsActive(hasManager: bool, elapsed: real, e: EventData)
  {
    hasManager && elapsed > e.activeAfter
  }

  /** The divisor of the probability test, max(1, luck * luckFactor). */
  function LuckDivisor(luck: real, luckFactor: real): (d: real)
    ensures d >= 1.0
  {
    MaxReal(1.0, luck * luckFactor)
  }

  /** The probability the roll is compared with. */
  function EffectiveChance(e: EventData, luck: real): real
  {
    e.probability / LuckDivisor(luck, e.luckFactor)
  }

  /** CheckIfWillHappen: a probability of at least 1 always happens without a roll;
      otherwise the luck-divided probability must reach the roll (a draw in [0, 1]). */
  predicate CheckIfWillHappen(e: EventData, luck: real, roll: real)
  {
    if e.probability >= 1.0 then true
    else EffectiveChance(e, luck) >= roll
  }

  /** Luck can only lower an event's chance: the effective chance never exceeds the
      probability, and it does not grow as luck grows. */
  lemma LuckOnlyLowersChance(e: EventData, luck: real, luck': real)
    requires e.probability >= 0.0 && e.luckFactor >= 0.0
    ensures EffectiveChance(e, luck) <= e.probability
    ensures luck <= luck' ==> EffectiveChance(e, luck') <= EffectiveChance(e, luck)
  {
    var d := LuckDivisor(luck, e.luckFactor);
    var d' := LuckDivisor(luck', e.luckFactor);
    assert EffectiveChance(e, luck) * d == e.probability;
    assert EffectiveChance(e, luck) <= e.probability by {
      assert e.probability <= e.probability * d;
    }
    if luck <= luck' {
      assert luck * e.luckFactor <= luck' * e.luckFactor;
      assert d == MaxReal(1.0, luck * e.luckFactor) && d' == MaxReal(1.0, luck' * e.luckFactor);
      assert d <= d';
      var x, x' := EffectiveChance(e, luck), EffectiveChance(e, luck');
      assert x' * d' == e.probability;
    }
  }

  /** So an event that is not certain passes the test only on rolls its bare probability
      would also pass: no amount of luck makes it likelier. */
  lemma LuckNeverHelps(e: EventData, luck: real, roll: real)
    requires e.probability >= 0.0 && e.luckFactor >= 0.0
    ensures e.probability < 1.0 && CheckIfWillHappen(e, luck, roll) ==> roll <= e.probability
  {
    LuckOnlyLowersChance(e, luck, luck);
  }

  /** The active events, in list order. */
  function ActiveOnes(events: seq<EventData>, hasManager: bool, elapsed: real): seq<EventData>
  {
    if events == [] then []
    else
      var last := events[|events| - 1];
      ActiveOnes(events[..|events| - 1], hasManager, elapsed) + (if IsActive(hasManager, elapsed, last) then [last] else [])
  }

  /** The active ones are no more than the events, and are exactly the active events. */
  lemma {:induction false} ActiveOnesFacts(events: seq<EventData>, hasManager: bool, elapsed: real)
    ensures |ActiveOnes(events, hasManager, elapsed)| <= |events|
    ensures forall e :: e in ActiveOnes(events, hasManager, elapsed) <==> e in events && IsActive(hasManager, elapsed, e)
  {
    if events != [] {
      var init := events[..|events| - 1];
      ActiveOnesFacts(init, hasManager, elapsed);
      assert forall i :: 0 <= i < |init| ==> init[i] == events[i];
    }
  }

  /** Extending the list by one event extends the active ones by that event when it is
      active. */
  lemma ActiveOnesStep(events: seq<EventData>, i: nat, hasManager: bool, elapsed: real)
    requires i < |events|
    ensures ActiveOnes(events[..i + 1], hasManager, elapsed) ==
              ActiveOnes(events[..i], hasManager, elapsed) + (if IsActive(hasManager, elapsed, events[i]) then [events[i]] else [])
  {
    assert events[..i + 1][..i] == events[..i];
  }

  /** The list GetRandomEvent draws from: every event, then every active event once more. */
  function Candidates(events: seq<EventData>, hasManager: bool, elapsed: real): (r: seq<EventData>)
    ensures events <= r
    ensures forall e :: e in r <==> e in events
  {
    ActiveOnesFacts(events, hasManager, elapsed);
    events + ActiveOnes(events, hasManager, elapsed)
  }

  lemma {:induction false} ActiveOnesMultiset(events: seq<EventData>, hasManager: bool, elapsed: real, e: EventData)
    ensures multiset(ActiveOnes(events, hasManager, elapsed))[e] == if IsActive(hasManager, elapsed, e) then multiset(events)[e] else 0
  {
    if events != [] {
      var init := events[..|events| - 1];
      var last := events[|events| - 1];
      var tail := if IsActive(hasManager, elapsed, last) then [last] else [];
      ActiveOnesMultiset(init, hasManager, elapsed, e);
      assert events == init + [last];
      assert multiset(events) == multiset(init) + multiset{last};
      assert ActiveOnes(events, hasManager, elapsed) == ActiveOnes(init, hasManager, elapsed) + tail;
      assert multiset(ActiveOnes(events, hasManager, elapsed)) == multiset(ActiveOnes(init, hasManager, elapsed)) + multiset(tail);
    }
  }

  /** The draw double-counts active events: each inactive event is as likely as its number
      of copies in the list, each active one twice as likely; no event drops out. */
  lemma CandidatesDoubleCount(events: seq<EventData>, hasManager: bool, elapsed: real, e: EventData)
    ensures multiset(Candidates(events, hasManager, elapsed))[e] ==
              multiset(events)[e] * (if IsActive(hasManager, elapsed, e) then 2 else 1)
    ensures |Candidates(events, hasManager, elapsed)| >= |events|
  {
    ActiveOnesMultiset(events, hasManager, elapsed, e);
  }

  /** EventManager.Event: a running event's remaining duration and activation cooldown. */
  datatype Running = Running(data: EventData, duration: real, cooldown: real)

  predicate Expires(r: Running, dt: real)
  {
    r.duration - dt <= 0.0
  }

  predicate Fires(r: Running, dt: real)
  {
    !Expires(r, dt) && r.cooldown - dt <= 0.0
  }

  /** A running event one tick later, when it does not expire: both clocks run down, and a
      cooldown that ran out restarts from the event's spawn interval. */
  function Ticked(r: Running, dt: real, interval: EventData -> real): (r': Running)
    ensures r'.data == r.data && r'.duration == r.duration - dt
    ensures Fires(r, dt) ==> r'.cooldown == interval(r.data)
    ensures r.cooldown - dt > 0.0 ==> r'.cooldown == r.cooldown - dt
  {
    var c := r.cooldown - dt;
    Running(r.data, r.duration - dt, if c <= 0.0 then interval(r.data) else c)
  }

  /** The running list after a tick: the expired events are dropped, the others ticked. */
  function Survivors(rs: seq<Running>, dt: real, interval: EventData -> real): seq<Running>
  {
    if rs == [] then []
    else
      var last := rs[|rs| - 1];
      Survivors(rs[..|rs| - 1], dt, interval) + (if Expires(last, dt) then [] else [Ticked(last, dt, interval)])
  }

  /** No more events survive than ran, every survivor has time left, and the survivors are
      exactly the unexpired events, ticked. */
  lemma {:induction false} SurvivorsFacts(rs: seq<Running>, dt: real, interval: EventData -> real)
    ensures var s := Survivors(rs, dt, interval);
      |s| <= |rs|
      && (forall r :: r in s ==> r.duration > 0.0)
      && (forall r :: r in s <==> exists i :: 0 <= i < |rs| && !Expires(rs[i], dt) && r == Ticked(rs[i], dt, interval))
  {
    if rs != [] {
      var init := rs[..|rs| - 1];
      SurvivorsFacts(init, dt, interval);
      assert forall i :: 0 <= i < |init| ==> init[i] == rs[i];
    }
  }

  /** The events activated in a tick, in list order: the live ones whose cooldown ran out. */
  function Firing(rs: seq<Running>, dt: real): seq<EventData>
  {
    if rs == [] then []
    else
      var last := rs[|rs| - 1];
      Firing(rs[..|rs| - 1], dt) + (if Fires(last, dt) then [last.data] else [])
  }

  /** No more activations than events, and an event activates exactly when it fires, so an
      event that expires in the tick is never among them. */
  lemma {:induction false} FiringFacts(rs: seq<Running>, dt: real)
    ensures |Firing(rs, dt)| <= |rs|
    ensures forall d :: d in Firing(rs, dt) <==> exists i :: 0 <= i < |rs| && Fires(rs[i], dt) && d == rs[i].data
  {
    if rs != [] {
      var init := rs[..|rs| - 1];
      FiringFacts(init, dt);
      assert forall i :: 0 <= i < |init| ==> init[i] == rs[i];
    }
  }

  /** Extending the list by one event extends both the survivors and the activations by
      that event's own outcome. */
  lemma TickStep(rs: seq<Running>, i: nat, dt: real, interval: EventData -> real)
    requires i < |rs|
    ensures Survivors(rs[..i + 1], dt, interval) ==
              Survivors(rs[..i], dt, interval) + (if Expires(rs[i], dt) then [] else [Ticked(rs[i], dt, interval)])
    ensures Firing(rs[..i + 1], dt) == Firing(rs[..i], dt) + (if Fires(rs[i], dt) then [rs[i].data] else [])
  {
    assert rs[..i + 1][..i] == rs[..i];
  }

  /** Every activation in a tick belongs to an event that survives it, with its cooldown
      restarted. */
  lemma FiredEventsSurvive(rs: seq<Running>, dt: real, interval: EventData -> real, i: nat)
    requires i < |rs| && Fires(rs[i], dt)
    ensures rs[i].data in Firing(rs, dt)
    ensures Running(rs[i].data, rs[i].duration - dt, interval(rs[i].data)) in Survivors(rs, dt, interval)
  {
    FiringFacts(rs, dt);
    SurvivorsFacts(rs, dt, interval);
    assert Ticked(rs[i], dt, interval) == Running(rs[i].data, rs[i].duration - dt, interval(rs[i].data));
  }

  /** The event added by a trigger, if any: full duration, cooldown 0. */
  function Added(triggered: Option<EventData>): seq<Running>
  {
    if triggered.Some? then [Running(triggered.value, triggered.value.duration, 0.0)] else []
  }

  class EventManager {
    var currentEventCooldown: real
    const events: seq<EventData>
    const firstTriggerDelay: real
    const triggerInterval: real
    var runningEvents: seq<Running>
    /** Event.data.Activate calls, in order, and the index of the player each one targets. */
    var activations: seq<EventData>
    var targets: seq<nat>

    ghost predicate Valid()
      reads this
    {
      |targets| == |activations|
    }

    /** Start: the first trigger waits firstTriggerDelay when that is positive, otherwise
        one trigger interval. */
    constructor (events: seq<EventData>, firstTriggerDelay: real, triggerInterval: real)
      ensures Valid()
      ensures this.events == events && this.firstTriggerDelay == firstTriggerDelay && this.triggerInterval == triggerInterval
      ensures currentEventCooldown == if firstTriggerDelay > 0.0 then firstTriggerDelay else triggerInterval
      ensures currentEventCooldown > 0.0 || currentEventCooldown == triggerInterval
      ensures runningEvents == [] && activations == [] && targets == []
    {
      this.events := events;
      this.firstTriggerDelay := firstTriggerDelay;
      this.triggerInterval := triggerInterval;
      currentEventCooldown := if firstTriggerDelay > 0.0 then firstTriggerDelay else triggerInterval;
      runningEvents := [];
      activations := [];
      targets := [];
    }

    /** Builds the candidate list of GetRandomEvent. */
    method CandidateList(hasManager: bool, elapsed: real) returns (possible: seq<EventData>)
      ensures possible == Candidates(events, hasManager, elapsed)
    {
      possible := events;
      var i := 0;
      while i < |events|
        invariant 0 <= i <= |events|
        invariant possible == events + ActiveOnes(events[..i], hasManager, elapsed)
      {
        ActiveOnesStep(events, i, hasManager, elapsed);
        if IsActive(hasManager, elapsed, events[i]) {
          assert possible + [events[i]] == events + (ActiveOnes(events[..i], hasManager, elapsed) + [events[i]]);
          possible := possible + [events[i]];
        }
        i := i + 1;
      }
      assert events[..|events|] == events;
    }

    /** GetRandomEvent: nothing when no event is assigned; otherwise a uniform draw from the
        candidate list, which is always one of the events. */
    method GetRandomEvent(hasManager: bool, elapsed: real, dice: Dice) returns (e: Option<EventData>)
      modifies dice
      ensures e.None? <==> events == []
      ensures e.Some? ==> e.value in events
      ensures events != [] ==>
                var c := Candidates(events, hasManager, elapsed);
                e == Some(c[dice.stream(old(dice.next)) % |c|]) && dice.next == old(dice.next) + 1
      ensures events == [] ==> dice.next == old(dice.next)
    {
      if |events| <= 0 {
        return None;
      }
      var possible := CandidateList(hasManager, elapsed);
      if |possible| > 0 {
        var k := dice.Range(|possible|);
        return Some(possible[k]);
      }
      return None;
    }

    /** The trigger half of Update: the event cooldown runs down; when it runs out, a drawn
        event is added if it passes CheckIfWillHappen for a randomly drawn player (given by
        luck), and the cooldown restarts from triggerInterval. */
    method Trigger(dt: real, hasManager: bool, elapsed: real, playerLuck: seq<real>, dice: Dice)
      returns (triggered: Option<EventData>)
      requires |playerLuck| > 0
      modifies this`currentEventCooldown, this`runningEvents, dice
      ensures old(currentEventCooldown) - dt > 0.0 ==>
                currentEventCooldown == old(currentEventCooldown) - dt && triggered == None && dice.next == old(dice.next)
      ensures old(currentEventCooldown) - dt <= 0.0 ==> currentEventCooldown == triggerInterval
      ensures old(currentEventCooldown) - dt <= 0.0 && events == [] ==> triggered == None
      ensures old(currentEventCooldown) - dt <= 0.0 && events != [] ==>
                var c := Candidates(events, hasManager, elapsed);
                var e := c[dice.stream(old(dice.next)) % |c|];
                var luck := playerLuck[dice.stream(old(dice.next) + 1) % |playerLuck|];
                triggered == (if CheckIfWillHappen(e, luck, dice.FractionAt(old(dice.next) + 2)) then Some(e) else None)
      ensures triggered.Some? ==> triggered.value in events
      ensures runningEvents == old(runningEvents) + Added(triggered)
    {
      triggered := None;
      currentEventCooldown := currentEventCooldown - dt;
      if currentEventCooldown <= 0.0 {
        var e := GetRandomEvent(hasManager, elapsed, dice);
        if e.Some? {
          var p := dice.Range(|playerLuck|);
          var happens := true;
          if e.value.probability < 1.0 {
            var roll := dice.Value();
            happens := EffectiveChance(e.value, playerLuck[p]) >= roll;
          }
          if happens {
            triggered := e;
            runningEvents := runningEvents + [Running(e.value, e.value.duration, 0.0)];
          }
        }
        currentEventCooldown := triggerInterval;
      }
    }

    /** The countdown half of Update: each running event loses dt of duration; one that
        reaches zero is removed without activating, the others lose dt of cooldown and, when
        it runs out, activate on a randomly drawn player and restart it from the event's
        spawn interval. */
    method Tick(dt: real, playerCount: nat, interval: EventData -> real, dice: Dice)
      requires Valid() && playerCount > 0
      modifies this`runningEvents, this`activations, this`targets, dice
      ensures Valid()
      ensures runningEvents == Survivors(old(runningEvents), dt, interval)
      ensures activations == old(activations) + Firing(old(runningEvents), dt)
      ensures dice.next == old(dice.next) + |Firing(old(runningEvents), dt)|
      ensures targets[..|old(targets)|] == old(targets)
      ensures forall j :: |old(targets)| <= j < |targets| ==>
                targets[j] == dice.stream(old(dice.next) + (j - |old(targets)|)) % playerCount
    {
      var rs := runningEvents;
      var kept := [];
      var i := 0;
      while i < |rs|
        invariant 0 <= i <= |rs| && Valid()
        invariant kept == Survivors(rs[..i], dt, interval)
        invariant activations == old(activations) + Firing(rs[..i], dt)
        invariant dice.next == old(dice.next) + |Firing(rs[..i], dt)|
        invariant |targets| == |old(targets)| + |Firing(rs[..i], dt)|
        invariant targets[..|old(targets)|] == old(targets)
        invariant forall j :: |old(targets)| <= j < |targets| ==>
                    targets[j] == dice.stream(old(dice.next) + (j - |old(targets)|)) % playerCount
      {
        TickStep(rs, i, dt, interval);
        var survivor := TickOne(rs[i], dt, playerCount, interval, dice);
        if survivor.Some? {
          kept := kept + [survivor.value];
        }
        i := i + 1;
      }
      assert rs[..|rs|] == rs;
      runningEvents := kept;
    }

    /** The countdown of one running event: None when it expires, otherwise the ticked
        event; when its cooldown runs out it activates on the next drawn player. */
    method TickOne(r: Running, dt: real, playerCount: nat, interval: EventData -> real, dice: Dice)
      returns (survivor: Option<Running>)
      requires Valid() && playerCount > 0
      modifies this`activations, this`targets, dice
      ensures Valid()
      ensures survivor == if Expires(r, dt) then None else Some(Ticked(r, dt, interval))
      ensures activations == old(activations) + (if Fires(r, dt) then [r.data] else [])
      ensures targets == old(targets) + (if Fires(r, dt) then [dice.stream(old(dice.next)) % playerCount] else [])
      ensures dice.next == old(dice.next) + (if Fires(r, dt) then 1 else 0)
    {
      var duration := r.duration - dt;
      if duration <= 0.0 {
        return None;
      }
      var cooldown := r.cooldown - dt;
      if cooldown <= 0.0 {
        var p := dice.Range(playerCount);
        activations := activations + [r.data];
        targets := targets + [p];
        cooldown := interval(r.data);
      }
      return Some(Running(r.data, duration, cooldown));
    }

    /** Update: the trigger, then the countdown, in which a newly added event (cooldown 0)
        already activates unless it expires at once. */
    method Update(dt: real, hasManager: bool, elapsed: real, playerLuck: seq<real>,
                  interval: EventData -> real, dice: Dice) returns (triggered: Option<EventData>)
      requires Valid() && |playerLuck| > 0
      modifies this, dice
      ensures Valid()
      ensures old(currentEventCooldown) - dt > 0.0 ==> currentEventCooldown == old(currentEventCooldown) - dt && triggered == None
      ensures old(currentEventCooldown) - dt <= 0.0 ==> currentEventCooldown == triggerInterval
      ensures triggered.Some? ==> triggered.value in events
      ensures runningEvents == Survivors(old(runningEvents) + Added(triggered), dt, interval)
      ensures activations == old(activations) + Firing(old(runningEvents) + Added(triggered), dt)
      ensures forall j :: |old(targets)| <= j < |targets| ==> targets[j] < |playerLuck|
    {
      triggered := Trigger(dt, hasManager, elapsed, playerLuck, dice);
      Tick(dt, |playerLuck|, interval, dice);
    }
  }
}
