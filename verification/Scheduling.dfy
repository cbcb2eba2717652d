/**
 Schedulers in several instances, each driving its own leader elector. A tick of a definition is one
 caller of the elector: it runs from the start of TryAcquire to the end of Release, and it enqueues
 its job while it holds.
 */
module Scheduling {
  import opened LeaderElection
  import opened Options
  import LockIds

  /** The life cycle of one instance. `begun`: Start was entered. `started`: it ran cron.Start.
      `running`: cron fires ticks. `stopped`: Shutdown ran cron.Stop. `down`: the latest Shutdown
      has returned nil. */
  datatype Life = Life(begun: bool, started: bool, running: bool, stopped: bool, down: bool)

  const UNBORN := Life(false, false, false, false, false)

  /** `overlap`: which definitions may run while an earlier tick of theirs still does. */
  datatype System = System(leader: State, lives: map<nat, Life>, overlap: Slot -> bool)

  datatype Event =
    | StartBegin(instance: nat)
    | CronStart(instance: nat)
    | CronStop(instance: nat)
    | ShutdownNil(instance: nat)
    | Tick(c: CallId, slot: Slot)
    | Inside(step: Step)

  function LifeOf(y: System, e: nat): Life {
    if e in y.lives then y.lives[e] else UNBORN
  }

  predicate Ticking(y: System, e: nat) {
    exists c :: c in y.leader.calls && y.leader.calls[c].slot.elector == e
  }

  predicate Possible(y: System, event: Event) {
    match event
    case StartBegin(e) => !LifeOf(y, e).begun
    case CronStart(e) => LifeOf(y, e).begun && !LifeOf(y, e).started
    case CronStop(e) => true
    case ShutdownNil(e) => LifeOf(y, e).stopped && !Ticking(y, e)
    case Tick(c, slot) =>
      && LifeOf(y, slot.elector).running
      && c !in y.leader.calls
      && (y.overlap(slot) || forall d :: d in y.leader.calls ==> y.leader.calls[d].slot != slot)
    case Inside(step) => !step.SBegin? && !step.SClose? && Enabled(y.leader, step)
  }

  function SetLife(y: System, e: nat, life: Life): System {
    y.(lives := y.lives[e := life])
  }

  function Happen(y: System, event: Event): System
    requires Possible(y, event)
  {
    match event
    case StartBegin(e) => SetLife(y, e, LifeOf(y, e).(begun := true))
    case CronStart(e) => SetLife(y, e, LifeOf(y, e).(started := true, running := true))
    case CronStop(e) => SetLife(y, e, LifeOf(y, e).(stopped := true, running := false, down := false))
    case ShutdownNil(e) => SetLife(y, e, LifeOf(y, e).(down := true))
    case Tick(c, slot) => y.(leader := Begin(y.leader, c, slot))
    case Inside(step) => y.(leader := Do(y.leader, step))
  }

  ghost predicate InitSystem(y: System) {
    Init(y.leader) && y.lives == map[]
  }

  ghost predicate History(ys: seq<System>, events: seq<Event>) {
    && |ys| == |events| + 1
    && InitSystem(ys[0])
    && forall i :: 0 <= i < |events| ==> Possible(ys[i], events[i]) && ys[i + 1] == Happen(ys[i], events[i])
  }

  /** Cron is stopped and Start is used up, so cron never fires again. */
  predicate Finished(life: Life) {
    life.begun && life.started && !life.running
  }

  ghost predicate SystemInv(y: System) {
    && Inv(y.leader)
    && (forall e :: LifeOf(y, e).running ==> LifeOf(y, e).started)
    && (forall e :: LifeOf(y, e).started ==> LifeOf(y, e).begun)
    && (forall e :: LifeOf(y, e).down && Finished(LifeOf(y, e)) ==> !Ticking(y, e))
    && (forall c, d :: c in y.leader.calls && d in y.leader.calls && c != d ==>
          y.leader.calls[c].slot == y.leader.calls[d].slot ==> y.overlap(y.leader.calls[c].slot))
  }

  /** A step of the leader election moves one call, and never to another slot. */
  lemma StepKeepsSlots(s: State, step: Step)
    requires Enabled(s, step) && !step.SBegin?
    ensures Do(s, step).calls.Keys <= s.calls.Keys
    ensures forall c :: c in Do(s, step).calls ==> Do(s, step).calls[c].slot == s.calls[c].slot
  {
  }

  lemma EventKeepsInv(y: System, event: Event)
    requires SystemInv(y) && Possible(y, event)
    ensures SystemInv(Happen(y, event))
    ensures Happen(y, event).overlap == y.overlap
  {
    var z := Happen(y, event);
    assert forall e :: event.Tick? || event.Inside? || e != event.instance ==> LifeOf(z, e) == LifeOf(y, e);
    match event
    case Tick(c, slot) =>
      StepKeepsInv(y.leader, SBegin(c, slot));
    case Inside(step) =>
      StepKeepsInv(y.leader, step);
      StepKeepsSlots(y.leader, step);
    case _ =>
      assert forall e :: Ticking(z, e) == Ticking(y, e);
  }

  lemma {:induction false} HistoryKeepsInv(ys: seq<System>, events: seq<Event>, i: nat)
    requires History(ys, events) && i < |ys|
    ensures SystemInv(ys[i]) && ys[i].overlap == ys[0].overlap
    decreases i
  {
    if i > 0 {
      HistoryKeepsInv(ys, events, i - 1);
      EventKeepsInv(ys[i - 1], events[i - 1]);
    }
  }

  /** At any time the ticks that are enqueuing under one lock id are ticks of one definition of one
      instance; and they are one tick when the definition does not overlap. */
  lemma OneInstanceEnqueues(ys: seq<System>, events: seq<Event>, i: nat, c: CallId, d: CallId)
    requires History(ys, events) && i < |ys|
    requires Is(ys[i].leader, c, Holding) && Is(ys[i].leader, d, Holding)
    requires var s := ys[i].leader; s.hash(s.calls[c].slot.key) == s.hash(s.calls[d].slot.key)
    ensures ys[i].leader.calls[c].slot == ys[i].leader.calls[d].slot
    ensures !ys[i].overlap(ys[i].leader.calls[c].slot) ==> c == d
  {
    HistoryKeepsInv(ys, events, i);
    var s := ys[i].leader;
    SameIdSameSlot(s, s.calls[c].slot, s.calls[d].slot);
  }

  // ----- Each acquire is matched by one release -----

  /** The steps by which TryAcquire of `c` succeeds. */
  predicate Acquires(y: System, event: Event, c: CallId) {
    && event.Inside?
    && (event.step == SStore(c)
        || (event.step == SCheck(c) && c in y.leader.calls && y.leader.calls[c].slot in y.leader.entries))
  }

  predicate Releases(event: Event, c: CallId) {
    event.Inside? && event.step == SRelease(c)
  }

  function Acquisitions(ys: seq<System>, events: seq<Event>, c: CallId): nat
    requires |ys| > |events|
  {
    if events == [] then 0
    else
      var last := |events| - 1;
      Acquisitions(ys, events[..last], c) + (if Acquires(ys[last], events[last], c) then 1 else 0)
  }

  function ReleaseCalls(events: seq<Event>, c: CallId): nat {
    if events == [] then 0
    else ReleaseCalls(events[..|events| - 1], c) + (if Releases(events[|events| - 1], c) then 1 else 0)
  }

  /** Over every history a caller has acquired as often as it has called Release, plus once if it
      holds now: no path loses a release or releases twice. */
  lemma {:induction false} AcquiresMatchReleases(ys: seq<System>, events: seq<Event>, c: CallId)
    requires History(ys, events)
    ensures Acquisitions(ys, events, c)
      == ReleaseCalls(events, c) + (if Is(ys[|events|].leader, c, Holding) then 1 else 0)
    decreases |events|
  {
    if events != [] {
      var last := |events| - 1;
      var before := ys[..last + 1];
      AcquiresMatchReleases(before, events[..last], c);
      SamePrefix(ys, before, events[..last], c);
      HoldingChanges(ys[last], events[last], c);
    }
  }

  lemma {:induction false} SamePrefix(ys: seq<System>, zs: seq<System>, events: seq<Event>, c: CallId)
    requires |ys| > |events| && |zs| > |events|
    requires forall i :: 0 <= i < |events| ==> ys[i] == zs[i]
    ensures Acquisitions(ys, events, c) == Acquisitions(zs, events, c)
  {
    if events != [] {
      SamePrefix(ys, zs, events[..|events| - 1], c);
    }
  }

  lemma HoldingChanges(y: System, event: Event, c: CallId)
    requires Possible(y, event)
    ensures Is(Happen(y, event).leader, c, Holding)
      == (Acquires(y, event, c) || (Is(y.leader, c, Holding) && !Releases(event, c)))
    ensures Acquires(y, event, c) ==> !Is(y.leader, c, Holding)
    ensures Releases(event, c) ==> Is(y.leader, c, Holding)
  {
    if event.Inside? {
      var s, step := y.leader, event.step;
      if !By(step, c) {
        OthersUntouched(s, step, c);
      } else {
        match step
        case SCheck(_) =>
        case SStore(_) =>
        case SRelease(_) =>
        case _ =>
      }
    }
  }

  lemma OthersUntouched(s: State, step: Step, c: CallId)
    requires Enabled(s, step) && !By(step, c)
    ensures c in Do(s, step).calls <==> c in s.calls
    ensures c in s.calls ==> Do(s, step).calls[c] == s.calls[c]
  {
  }

  // ----- Shutdown -----

  /** When cron is finished and no tick runs, no event changes that. */
  lemma StaysQuiet(y: System, event: Event, e: nat)
    requires Possible(y, event) && Finished(LifeOf(y, e)) && !Ticking(y, e)
    ensures Finished(LifeOf(Happen(y, event), e)) && !Ticking(Happen(y, event), e)
  {
    if event.Inside? {
      StepKeepsSlots(y.leader, event.step);
    }
  }

  /** Once Shutdown has returned nil and Start had run cron.Start before, the instance is quiet for
      good: no tick runs or holds, which is what Close of its elector asks for. */
  lemma {:induction false} QuietAfterShutdown(ys: seq<System>, events: seq<Event>, i: nat, j: nat, e: nat)
    requires History(ys, events) && i <= j < |ys|
    requires LifeOf(ys[i], e).down && Finished(LifeOf(ys[i], e))
    ensures Finished(LifeOf(ys[j], e)) && !Ticking(ys[j], e) && NoHolder(ys[j].leader, e)
    decreases j - i
  {
    HistoryKeepsInv(ys, events, i);
    if i < j {
      QuietAfterShutdown(ys, events, i, j - 1, e);
      StaysQuiet(ys[j - 1], events[j - 1], e);
    }
  }

  /** What has happened before the i-th event. */
  ghost predicate Happened(events: seq<Event>, i: nat, event: Event)
    requires i <= |events|
  {
    exists k :: 0 <= k < i && events[k] == event
  }

  ghost predicate HappenedSince(events: seq<Event>, i: nat, event: Event, undo: Event)
    requires i <= |events|
  {
    exists k :: 0 <= k < i && events[k] == event && forall m :: k < m < i ==> events[m] != undo
  }

  lemma OneMore(events: seq<Event>, i: nat, event: Event, undo: Event)
    requires i < |events| && event != undo
    ensures Happened(events, i + 1, event) <==> Happened(events, i, event) || events[i] == event
    ensures HappenedSince(events, i + 1, event, undo)
      <==> events[i] == event || (HappenedSince(events, i, event, undo) && events[i] != undo)
  {
    if HappenedSince(events, i, event, undo) && events[i] != undo {
      var k :| 0 <= k < i && events[k] == event && forall m :: k < m < i ==> events[m] != undo;
      assert forall m :: k < m < i + 1 ==> events[m] != undo;
    }
  }

  /** The life of an instance is what happened to it. */
  lemma {:induction false} LifeByEvents(ys: seq<System>, events: seq<Event>, i: nat, e: nat)
    requires History(ys, events) && i < |ys|
    ensures var life := LifeOf(ys[i], e);
      && (life.begun <==> Happened(events, i, StartBegin(e)))
      && (life.started <==> Happened(events, i, CronStart(e)))
      && (life.running <==> HappenedSince(events, i, CronStart(e), CronStop(e)))
      && (life.stopped <==> Happened(events, i, CronStop(e)))
      && (life.down <==> HappenedSince(events, i, ShutdownNil(e), CronStop(e)))
    decreases i
  {
    if i > 0 {
      LifeByEvents(ys, events, i - 1, e);
      OneMore(events, i - 1, StartBegin(e), CronStop(e));
      OneMore(events, i - 1, CronStart(e), CronStop(e));
      OneMore(events, i - 1, ShutdownNil(e), CronStop(e));
      OneMore(events, i - 1, CronStop(e), StartBegin(e));
      LifeChanges(ys[i - 1], events[i - 1], e);
      hide Happened, HappenedSince, Happen, Possible, InitSystem;
    }
  }

  lemma LifeChanges(y: System, event: Event, e: nat)
    requires Possible(y, event)
    ensures var was, life := LifeOf(y, e), LifeOf(Happen(y, event), e);
      && life.begun == (was.begun || event == StartBegin(e))
      && life.started == (was.started || event == CronStart(e))
      && life.running == (event == CronStart(e) || (was.running && event != CronStop(e)))
      && life.stopped == (was.stopped || event == CronStop(e))
      && life.down == (event == ShutdownNil(e) || (was.down && event != CronStop(e)))
  {
  }

  /** A tick begins only between cron.Start and cron.Stop, and Shutdown returns nil only after cron.Stop
      and with no tick under way. */
  lemma EventsNeed(ys: seq<System>, events: seq<Event>, i: nat)
    requires History(ys, events) && i < |events|
    ensures events[i].Tick? ==>
      var e := events[i].slot.elector; HappenedSince(events, i, CronStart(e), CronStop(e))
    ensures events[i].CronStart? ==> Happened(events, i, StartBegin(events[i].instance))
    ensures events[i].ShutdownNil? ==>
      Happened(events, i, CronStop(events[i].instance)) && !Ticking(ys[i], events[i].instance)
  {
    match events[i]
    case Tick(_, slot) => LifeByEvents(ys, events, i, slot.elector);
    case CronStart(e) => LifeByEvents(ys, events, i, e);
    case ShutdownNil(e) => LifeByEvents(ys, events, i, e);
    case _ =>
  }

  lemma {:induction false} FinishedAfter(ys: seq<System>, events: seq<Event>, a: nat, b: nat, i: nat, e: nat)
    requires History(ys, events) && a < b < i < |ys| && events[a] == CronStart(e) && events[b] == CronStop(e)
    ensures Finished(LifeOf(ys[i], e))
    decreases i
  {
    if i == b + 1 {
      LifeByEvents(ys, events, b, e);
      HistoryKeepsInv(ys, events, b);
    } else {
      FinishedAfter(ys, events, a, b, i - 1, e);
      assert Possible(ys[i - 1], events[i - 1]);
    }
  }

  /** Start ran cron.Start, then Shutdown ran cron.Stop and returned nil: no tick of the instance is under
      way ever after, and none begins. */
  lemma QuietByEvents(ys: seq<System>, events: seq<Event>, a: nat, b: nat, n: nat, j: nat, e: nat)
    requires History(ys, events) && a < b < n < j < |ys|
    requires events[a] == CronStart(e) && events[b] == CronStop(e) && events[n] == ShutdownNil(e)
    ensures !Ticking(ys[j], e) && NoHolder(ys[j].leader, e)
    ensures j < |events| && events[j].Tick? ==> events[j].slot.elector != e
  {
    FinishedAfter(ys, events, a, b, n + 1, e);
    QuietAfterShutdown(ys, events, n + 1, j, e);
  }

  /** Lets a Start that was late, or never called, run on until cron fires. */
  function Resume(y: System, e: nat): System
    requires !Finished(LifeOf(y, e)) && (LifeOf(y, e).started ==> LifeOf(y, e).begun)
  {
    if LifeOf(y, e).started then y
    else if LifeOf(y, e).begun then Happen(y, CronStart(e))
    else Happen(Happen(y, StartBegin(e)), CronStart(e))
  }

  /** The condition is exact: in any other case the instance can still tick after a nil Shutdown. */
  lemma OtherwiseStillTicks(ys: seq<System>, events: seq<Event>, i: nat, slot: Slot, c: CallId)
    requires History(ys, events) && i < |ys|
    requires LifeOf(ys[i], slot.elector).down && !Finished(LifeOf(ys[i], slot.elector))
    requires c !in ys[i].leader.calls && !Ticking(ys[i], slot.elector)
    ensures LifeOf(ys[i], slot.elector).started ==> LifeOf(ys[i], slot.elector).begun
    ensures var y := Resume(ys[i], slot.elector);
      && Possible(y, Tick(c, slot))
      && Ticking(Happen(y, Tick(c, slot)), slot.elector)
      && LifeOf(Happen(y, Tick(c, slot)), slot.elector).down
  {
    HistoryKeepsInv(ys, events, i);
    var y := Resume(ys[i], slot.elector);
    assert y.leader == ys[i].leader;
    assert c in Happen(y, Tick(c, slot)).leader.calls;
  }

  /** It is not enough that Start began before Shutdown: when Shutdown stops cron before Start gets
      to cron.Start, Shutdown returns nil and a later tick takes the lock. */
  lemma BeganIsNotEnough(y: System, key: LockIds.Key) returns (ys: seq<System>, events: seq<Event>)
    requires InitSystem(y)
    ensures History(ys, events) && ys[0] == y
    ensures |events| == 9 && events[0] == StartBegin(0) && events[1] == CronStop(0) && events[2] == ShutdownNil(0)
    ensures LifeOf(ys[9], 0).down && Is(ys[9].leader, 0, Holding)
  {
    ys, events := StopOvertakesStart(y);
    ys, events := Next(ys, events, Tick(0, Slot(0, key)));
    ys, events := Acquiring(ys, events, 0, 0);
  }

  /** A tick that has begun acquires a free lock, through a session nobody uses. */
  lemma Acquiring(ys: seq<System>, events: seq<Event>, c: CallId, conn: nat)
    returns (zs: seq<System>, more: seq<Event>)
    requires History(ys, events)
    requires var s := ys[|events|].leader;
      && Is(s, c, Asked) && s.calls[c].slot !in s.entries
      && conn !in s.inUse && s.hash(s.calls[c].slot.key) !in s.held
    ensures History(zs, more) && ys <= zs && events <= more && |more| == |events| + 4
    ensures zs[|more|].lives == ys[|events|].lives && Is(zs[|more|].leader, c, Holding)
    ensures zs[|more|].leader.calls
      == ys[|events|].leader.calls[c := ys[|events|].leader.calls[c].(phase := Holding)]
  {
    var n := |events|;
    zs, more := Next(ys, events, Inside(SCheck(c)));
    assert zs[n + 1].leader == Check(ys[n].leader, c);
    zs, more := Next(zs, more, Inside(SConnect(c, conn)));
    zs, more := Next(zs, more, Inside(SAskLock(c)));
    assert IsLocked(zs[n + 3].leader, c);
    zs, more := Next(zs, more, Inside(SStore(c)));
  }

  lemma StopOvertakesStart(y: System) returns (ys: seq<System>, events: seq<Event>)
    requires InitSystem(y)
    ensures events == [StartBegin(0), CronStop(0), ShutdownNil(0), CronStart(0)]
    ensures History(ys, events) && ys[0] == y
    ensures ys[4] == y.(lives := map[0 := Life(true, true, true, true, true)])
  {
    ys, events := [y], [];
    ys, events := Next(ys, events, StartBegin(0));
    ys, events := Next(ys, events, CronStop(0));
    ys, events := Next(ys, events, ShutdownNil(0));
    ys, events := Next(ys, events, CronStart(0));
    assert ys[4].lives == map[0 := Life(true, true, true, true, true)];
  }

  lemma Next(ys: seq<System>, events: seq<Event>, event: Event) returns (zs: seq<System>, more: seq<Event>)
    requires History(ys, events) && Possible(ys[|events|], event)
    ensures zs == ys + [Happen(ys[|events|], event)] && more == events + [event]
    ensures History(zs, more)
  {
    zs, more := ys + [Happen(ys[|events|], event)], events + [event];
  }

  lemma HolderCounted(ys: seq<System>, events: seq<Event>, c: CallId, slot: Slot)
    requires History(ys, events) && c in ys[|events|].leader.calls
    requires ys[|events|].leader.calls[c] == Call(slot, Holding)
    ensures slot in ys[|events|].leader.entries
    ensures ys[|events|].leader.entries[slot].refCount == |Holders(ys[|events|].leader, slot)|
  {
    HistoryKeepsInv(ys, events, |events|);
    hide SessionsExclusive, LocksOwned, Tidy, History;
  }

  lemma OneTickHolds(y: System, key: LockIds.Key) returns (ys: seq<System>, events: seq<Event>)
    requires InitSystem(y)
    ensures History(ys, events) && ys[0] == y && LifeOf(ys[|events|], 0).running
    ensures ys[|events|].leader.calls == map[0 := Call(Slot(0, key), Holding)]
  {
    ys, events := [y], [];
    ys, events := Next(ys, events, StartBegin(0));
    ys, events := Next(ys, events, CronStart(0));
    ys, events := Next(ys, events, Tick(0, Slot(0, key)));
    ys, events := Acquiring(ys, events, 0, 0);
  }

  /** With overlap two ticks of one definition hold at the same time, through one lock. */
  lemma OverlappingTicksShare(y: System, key: LockIds.Key) returns (ys: seq<System>, events: seq<Event>)
    requires InitSystem(y) && y.overlap(Slot(0, key))
    ensures History(ys, events) && ys[0] == y
    ensures var s := ys[|events|].leader;
      && Is(s, 0, Holding) && Is(s, 1, Holding) && Slot(0, key) in s.entries && s.entries[Slot(0, key)].refCount == 2
  {
    var slot := Slot(0, key);
    ys, events := OneTickHolds(y, key);
    HistoryKeepsInv(ys, events, |events|);
    hide SystemInv, InitSystem, History, Holders, Do, Enabled;
    ys, events := Next(ys, events, Tick(1, slot));
    HolderCounted(ys, events, 0, slot);
    SecondJoins(ys[|events|].leader, slot);
    ys, events := Next(ys, events, Inside(SCheck(1)));
    HolderCounted(ys, events, 0, slot);
  }

  lemma SecondJoins(s: State, slot: Slot)
    requires s.calls == map[0 := Call(slot, Holding), 1 := Call(slot, Asked)] && slot in s.entries
    ensures Enabled(s, SCheck(1))
    ensures Do(s, SCheck(1)).calls == map[0 := Call(slot, Holding), 1 := Call(slot, Holding)]
    ensures Holders(Do(s, SCheck(1)), slot) == {0, 1}
  {
  }

  // ----- Every tick ends -----

  function Rank(phase: Phase): nat {
    match phase
    case Asked => 7
    case Missed => 6
    case Connected(_) => 5
    case Locked(_) => 4
    case Holding => 3
    case Unlocking(_, _) => 2
    case Closing(_) => 1
  }

  /** A tick under way always has a step of its own to take, whatever the others do. */
  lemma TickNeverStuck(y: System, c: CallId) returns (step: Step)
    requires c in y.leader.calls
    ensures By(step, c) && Possible(y, Inside(step))
  {
    match y.leader.calls[c].phase
    case Asked => step := SCheck(c);
    case Missed => step := SNoConnection(c);
    case Connected(_) => step := SAskLock(c);
    case Locked(_) => step := SStore(c);
    case Holding => step := SRelease(c);
    case Unlocking(_, _) => step := SAskUnlock(c);
    case Closing(_) => step := SReturnSession(c);
  }

  /** Each of its steps brings it nearer to its end and no step of another takes it back, so after at most
      seven steps of its own it is over. */
  lemma TickAdvances(y: System, step: Step, c: CallId)
    requires Possible(y, Inside(step)) && c in y.leader.calls
    ensures var s := Do(y.leader, step);
      if By(step, c) then c in s.calls ==> Rank(s.calls[c].phase) < Rank(y.leader.calls[c].phase)
      else c in s.calls && s.calls[c] == y.leader.calls[c]
    ensures 1 <= Rank(y.leader.calls[c].phase) <= 7
  {
    if !By(step, c) {
      OthersUntouched(y.leader, step, c);
    }
  }

  // ----- The tick closure -----

  datatype Definition = Definition(name: LockIds.Key)

  /** "schedule:" */
  const PREFIX: LockIds.Key := [115, 99, 104, 101, 100, 117, 108, 101, 58]

  function LockKey(def: Definition): LockIds.Key {
    PREFIX + def.name
  }

  /** The lock key of a definition is "schedule:" and its name. */
  lemma KeyOfDefinition(def: Definition)
    ensures |LockKey(def)| == |"schedule:"| + |def.name| && LockKey(def)[|"schedule:"|..] == def.name
    ensures forall i :: 0 <= i < |"schedule:"| ==> LockKey(def)[i] as char == "schedule:"[i]
  {
  }

  /** Definitions whose names differ in exactly one byte never wait for each other. */
  lemma NamesApart(a: Definition, b: Definition, at: nat)
    requires |a.name| == |b.name| && at < |a.name| && a.name[at] != b.name[at]
    requires a.name[..at] == b.name[..at] && a.name[at + 1..] == b.name[at + 1..]
    ensures LockIds.LockId(LockKey(a)) != LockIds.LockId(LockKey(b))
  {
    var k := |PREFIX| + at;
    assert LockKey(a)[..k] == PREFIX + a.name[..at] && LockKey(b)[..k] == PREFIX + b.name[..at];
    assert LockKey(a)[k + 1..] == a.name[at + 1..] && LockKey(b)[k + 1..] == b.name[at + 1..];
    LockIds.OneByteSeparates(LockKey(a), LockKey(b), at + |PREFIX|);
  }

  class Scheduler {
    const instance: nat
    /** None: every instance runs every schedule. */
    const leader: Option<Cluster>
    var wg: nat
    var enqueued: seq<Definition>
    var reported: seq<Definition>

    constructor (instance: nat, leader: Option<Cluster>)
      ensures this.instance == instance && this.leader == leader
      ensures wg == 0 && enqueued == [] && reported == []
    {
      this.instance, this.leader := instance, leader;
      wg, enqueued, reported := 0, [], [];
    }

    /** One tick of `def`, as caller `c` of the elector. The job is enqueued between acquire and
        release. Whatever happens the tick ends without holding: Release follows TryAcquire exactly
        once if it succeeded, and not otherwise. */
    method Tick(def: Definition, c: CallId, accepted: bool)
      returns (outcome: Outcome, ghost tried: seq<Step>, ghost released: seq<Step>)
      requires leader.Some? ==> Inv(leader.value.state) && c !in leader.value.state.calls
      modifies `wg, `enqueued, `reported, if leader.Some? then {leader.value} else {}
      ensures leader.None? ==> outcome == Acquired
      ensures leader.Some? ==>
        && Inv(leader.value.state) && c !in leader.value.state.calls
        && leader.value.path == old(leader.value.path) + tried + released
        && TryPath(tried, c, Slot(instance, LockKey(def)), outcome)
        && if outcome == Acquired then exists failed: bool :: ReleasePath(released, c, failed) else released == []
      ensures wg == old(wg)
      ensures enqueued == old(enqueued) + (if outcome == Acquired && accepted then [def] else [])
      ensures reported == old(reported)
        + (if outcome == Failed || (outcome == Acquired && !accepted) then [def] else [])
    {
      wg := wg + 1;
      outcome, tried, released := Acquired, [], [];
      if leader.Some? {
        outcome, tried := leader.value.TryAcquire(c, Slot(instance, LockKey(def)));
      }
      if outcome == Failed {
        reported := reported + [def];
      } else if outcome == Acquired {
        assert leader.Some? ==> Is(leader.value.state, c, Holding);
        if accepted {
          enqueued := enqueued + [def];
        } else {
          reported := reported + [def];
        }
        if leader.Some? {
          var failed;
          failed, released := leader.value.Release(c);
        }
      }
      wg := wg - 1;
    }
  }
}
