/** backend/src/lib/concurrency.ts: BoundedConcurrency, a gate that hands a finishing task's slot
    straight to the first in line. */
module Gate {
  import opened Wrappers

  /** The two limits of a gate; callers may pass any number. */
  datatype Limits = Limits(maxActive: int, maxWaiting: int)

  /** The private fields. A waiting resolve function carries the name of whoever it wakes. */
  datatype Slots = Slots(active: int, waiting: seq<nat>)

  datatype Entry = Refused | Queued | Admitted

  function EntryOf(l: Limits, s: Slots): Entry {
    if s.active < l.maxActive then Admitted
    else if |s.waiting| >= l.maxWaiting then Refused
    else Queued
  }

  /** run() up to its first await. */
  function AfterEnter(l: Limits, s: Slots, task: nat): Slots {
    match EntryOf(l, s)
    case Refused => s
    case Queued => s.(waiting := s.waiting + [task])
    case Admitted => s.(active := s.active + 1)
  }

  /** The finally block. */
  function AfterLeave(s: Slots): Slots {
    if s.waiting != [] then s.(waiting := s.waiting[1..]) else s.(active := s.active - 1)
  }

  function NextUp(s: Slots): Option<nat> {
    if s.waiting != [] then Some(s.waiting[0]) else None
  }

  // --- All the callers ---

  /** A woken task holds its slot although its own code has not gone on yet. */
  datatype Phase = TurnedAway | InLine | Woken | Running | Ended(threw: bool)

  /** Tasks are numbered as they arrive; `granted` lists them as they got a slot. */
  datatype World = World(slots: Slots, tasks: seq<Phase>, granted: seq<nat>)

  datatype Event = Arrive | GoOn(task: nat) | Finish(task: nat, threw: bool)

  const START := World(Slots(0, []), [], [])

  function Step(l: Limits, w: World, event: Event): World {
    match event
    case Arrive =>
      var task := |w.tasks|;
      var slots := AfterEnter(l, w.slots, task);
      (match EntryOf(l, w.slots)
       case Refused => World(slots, w.tasks + [TurnedAway], w.granted)
       case Queued => World(slots, w.tasks + [InLine], w.granted)
       case Admitted => World(slots, w.tasks + [Running], w.granted + [task]))
    case GoOn(task) =>
      if task < |w.tasks| && w.tasks[task].Woken? then w.(tasks := w.tasks[task := Running]) else w
    case Finish(task, threw) =>
      if !(task < |w.tasks| && w.tasks[task].Running?) then w
      else
        var ended := w.tasks[task := Ended(threw)];
        var next := NextUp(w.slots);
        if next.Some? && next.value < |ended|
        then World(AfterLeave(w.slots), ended[next.value := Woken], w.granted + [next.value])
        else World(AfterLeave(w.slots), ended, w.granted)
  }

  function Run(l: Limits, events: seq<Event>): World {
    if events == [] then START else Step(l, Run(l, events[..|events| - 1]), events[|events| - 1])
  }

  // --- What holds in every reachable state ---

  predicate Holding(phase: Phase) {
    phase.Woken? || phase.Running?
  }

  ghost function Holders(w: World): set<nat> {
    set i: nat | i < |w.tasks| && Holding(w.tasks[i])
  }

  predicate Ascending(s: seq<nat>) {
    forall i, j :: 0 <= i < j < |s| ==> s[i] < s[j]
  }

  /** Everyone let in, in the order of arrival: first those who got a slot, then those in line. */
  function LetIn(w: World): seq<nat> {
    w.granted + w.slots.waiting
  }

  predicate InLineRight(w: World) {
    && (forall k :: 0 <= k < |w.slots.waiting| ==>
          w.slots.waiting[k] < |w.tasks| && w.tasks[w.slots.waiting[k]].InLine?)
    && (forall i :: 0 <= i < |w.tasks| && w.tasks[i].InLine? ==> i in w.slots.waiting)
  }

  /** Everyone on the list has arrived and was not refused. */
  predicate Listed(tasks: seq<Phase>, list: seq<nat>) {
    forall k :: 0 <= k < |list| ==> list[k] < |tasks| && !tasks[list[k]].TurnedAway?
  }

  /** Everyone who was not refused is on the list. */
  predicate Lists(tasks: seq<Phase>, list: seq<nat>) {
    forall i :: 0 <= i < |tasks| && !tasks[i].TurnedAway? ==> i in list
  }

  predicate InOrder(w: World) {
    Ascending(LetIn(w)) && Listed(w.tasks, LetIn(w)) && Lists(w.tasks, LetIn(w))
  }

  ghost predicate Counted(l: Limits, w: World) {
    && w.slots.active == |Holders(w)|
    && (l.maxActive >= 0 ==> w.slots.active <= l.maxActive)
    && (l.maxActive <= 0 ==> w.slots.active == 0)
    && (w.slots.waiting != [] ==> w.slots.active >= l.maxActive && |w.slots.waiting| <= l.maxWaiting)
  }

  ghost predicate Right(l: Limits, w: World) {
    InLineRight(w) && InOrder(w) && Counted(l, w)
  }

  lemma ArriveHolds(l: Limits, w: World)
    ensures Holders(Step(l, w, Arrive))
         == if EntryOf(l, w.slots).Admitted? then Holders(w) + {|w.tasks|} else Holders(w)
  {
  }

  lemma ListOneMore(tasks: seq<Phase>, list: seq<nat>, phase: Phase)
    requires Ascending(list) && Listed(tasks, list) && Lists(tasks, list)
    ensures var longer := if phase.TurnedAway? then list else list + [|tasks|];
      Ascending(longer) && Listed(tasks + [phase], longer) && Lists(tasks + [phase], longer)
  {
    var longer := if phase.TurnedAway? then list else list + [|tasks|];
    forall i | 0 <= i <= |tasks| && !(tasks + [phase])[i].TurnedAway?
      ensures i in longer
    {
      if i < |tasks| {
        assert i in list;
      } else {
        assert longer[|list|] == i;
      }
    }
  }

  lemma ArrivedList(l: Limits, w: World)
    requires w.slots.waiting != [] ==> w.slots.active >= l.maxActive
    ensures var v := Step(l, w, Arrive);
      LetIn(v) == if EntryOf(l, w.slots).Refused? then LetIn(w) else LetIn(w) + [|w.tasks|]
  {
    match EntryOf(l, w.slots)
    case Refused =>
    case Queued => JoinTheLine(w.granted, w.slots.waiting, |w.tasks|);
    case Admitted => JoinTheLine(w.granted, w.slots.waiting, |w.tasks|);
  }

  lemma JoinTheLine(granted: seq<nat>, waiting: seq<nat>, n: nat)
    ensures granted + (waiting + [n]) == granted + waiting + [n]
    ensures waiting == [] ==> granted + [n] + waiting == granted + waiting + [n]
  {
  }

  lemma ArriveKeepsOrder(l: Limits, w: World)
    requires InOrder(w) && Counted(l, w)
    ensures InOrder(Step(l, w, Arrive))
  {
    var phase := match EntryOf(l, w.slots) case Refused => TurnedAway case Queued => InLine case Admitted => Running;
    ArrivedList(l, w);
    ListOneMore(w.tasks, LetIn(w), phase);
    assert Step(l, w, Arrive).tasks == w.tasks + [phase];
  }

  lemma ArriveKeepsLine(l: Limits, w: World)
    requires InLineRight(w)
    ensures InLineRight(Step(l, w, Arrive))
  {
    var v, n := Step(l, w, Arrive), |w.tasks|;
    if EntryOf(l, w.slots).Queued? {
      assert v.slots.waiting[|w.slots.waiting|] == n;
      assert forall i :: i in w.slots.waiting ==> i in v.slots.waiting;
    }
  }

  lemma ArriveKeepsCount(l: Limits, w: World)
    requires Counted(l, w)
    ensures Counted(l, Step(l, w, Arrive))
  {
    ArriveHolds(l, w);
  }

  lemma ArriveKeepsRight(l: Limits, w: World)
    requires Right(l, w)
    ensures Right(l, Step(l, w, Arrive))
  {
    ArriveKeepsOrder(l, w);
    ArriveKeepsLine(l, w);
    ArriveKeepsCount(l, w);
  }

  /** A finishing task, whether it returned or threw, frees exactly its own slot, and the first in
      line, if there is one, has it at once. */
  lemma FinishHandsOver(l: Limits, w: World, task: nat, threw: bool)
    requires Right(l, w) && task < |w.tasks| && w.tasks[task].Running?
    ensures var v := Step(l, w, Finish(task, threw));
      && Holders(v) == Holders(w) - {task} + (if w.slots.waiting != [] then {w.slots.waiting[0]} else {})
      && LetIn(v) == LetIn(w)
      && |v.slots.waiting| == if w.slots.waiting != [] then |w.slots.waiting| - 1 else 0
  {
  }

  lemma FinishKeepsCount(l: Limits, w: World, task: nat, threw: bool)
    requires Right(l, w) && task < |w.tasks| && w.tasks[task].Running?
    ensures Counted(l, Step(l, w, Finish(task, threw)))
  {
    FinishHandsOver(l, w, task, threw);
    assert task in Holders(w);
    if w.slots.waiting != [] {
      assert w.slots.waiting[0] !in Holders(w);
    }
  }

  lemma FinishKeepsRight(l: Limits, w: World, task: nat, threw: bool)
    requires Right(l, w) && task < |w.tasks| && w.tasks[task].Running?
    ensures Right(l, Step(l, w, Finish(task, threw)))
  {
    FinishKeepsCount(l, w, task, threw);
    assert InOrder(Step(l, w, Finish(task, threw))) by {
      FinishHandsOver(l, w, task, threw);
      FinishKeepsOrder(l, w, task, threw);
    }
    if w.slots.waiting != [] {
      FinishKeepsLine(l, w, task, threw);
    }
  }

  lemma FinishKeepsOrder(l: Limits, w: World, task: nat, threw: bool)
    requires InOrder(w) && InLineRight(w) && task < |w.tasks| && w.tasks[task].Running?
    requires LetIn(Step(l, w, Finish(task, threw))) == LetIn(w)
    ensures InOrder(Step(l, w, Finish(task, threw)))
  {
    var v := Step(l, w, Finish(task, threw));
    assert forall i :: 0 <= i < |w.tasks| ==> (v.tasks[i].TurnedAway? <==> w.tasks[i].TurnedAway?);
  }

  lemma FinishKeepsLine(l: Limits, w: World, task: nat, threw: bool)
    requires Right(l, w) && task < |w.tasks| && w.tasks[task].Running? && w.slots.waiting != []
    ensures InLineRight(Step(l, w, Finish(task, threw)))
  {
    var v, next := Step(l, w, Finish(task, threw)), w.slots.waiting[0];
    assert v.slots.waiting == w.slots.waiting[1..];
    forall k | 0 <= k < |v.slots.waiting|
      ensures v.slots.waiting[k] < |v.tasks| && v.tasks[v.slots.waiting[k]].InLine?
    {
      var here := |w.granted|;
      assert v.slots.waiting[k] == w.slots.waiting[k + 1];
      assert LetIn(w)[here] == next && LetIn(w)[here + k + 1] == v.slots.waiting[k];
    }
    forall i | 0 <= i < |v.tasks| && v.tasks[i].InLine?
      ensures i in v.slots.waiting
    {
      assert w.tasks[i].InLine? && i != next;
      assert w.slots.waiting == [next] + v.slots.waiting;
    }
  }

  lemma GoOnKeepsRight(l: Limits, w: World, task: nat)
    requires Right(l, w)
    ensures Right(l, Step(l, w, GoOn(task)))
  {
    var v := Step(l, w, GoOn(task));
    assert Holders(v) == Holders(w);
    assert LetIn(v) == LetIn(w);
  }

  lemma {:induction false} RunIsRight(l: Limits, events: seq<Event>)
    ensures Right(l, Run(l, events))
  {
    if events == [] {
      assert Holders(START) == {};
    } else {
      var w := Run(l, events[..|events| - 1]);
      RunIsRight(l, events[..|events| - 1]);
      match events[|events| - 1]
      case Arrive => ArriveKeepsRight(l, w);
      case GoOn(task) => GoOnKeepsRight(l, w, task);
      case Finish(task, threw) =>
        if task < |w.tasks| && w.tasks[task].Running? {
          FinishKeepsRight(l, w, task, threw);
        }
    }
  }

  // --- The gate's promises ---

  /** Never more tasks at once, nor more in line, than the limits allow; nobody waits while a slot is
      free; slots are granted in the order of arrival. */
  lemma GateKeepsItsLimits(l: Limits, events: seq<Event>)
    requires l.maxActive >= 1
    ensures var w := Run(l, events);
      && w.slots.active == |Holders(w)| <= l.maxActive
      && (w.slots.waiting == [] || |w.slots.waiting| <= l.maxWaiting)
      && (w.slots.waiting != [] ==> w.slots.active == l.maxActive)
      && Ascending(w.granted + w.slots.waiting)
  {
    RunIsRight(l, events);
  }

  /** A newcomer is let in at once, or queues, or is refused, by how many hold a slot and how many wait. */
  lemma ArrivalsAreTreatedFairly(l: Limits, events: seq<Event>)
    requires l.maxActive >= 1
    ensures var w := Run(l, events);
      var phase := Step(l, w, Arrive).tasks[|w.tasks|];
      && (phase.Running? <==> |Holders(w)| < l.maxActive)
      && (phase.Running? ==> w.slots.waiting == [])
      && (phase.TurnedAway? <==> |Holders(w)| == l.maxActive && |w.slots.waiting| >= l.maxWaiting)
  {
    RunIsRight(l, events);
  }

  /** Whoever was let in and has not ended holds a slot or waits for one that somebody holds. */
  lemma NobodyIsForgotten(l: Limits, events: seq<Event>, task: nat)
    requires l.maxActive >= 1
    requires var w := Run(l, events); task < |w.tasks| && !w.tasks[task].TurnedAway? && !w.tasks[task].Ended?
    ensures var w := Run(l, events);
      && (task in Holders(w) || task in w.slots.waiting)
      && Holders(w) != {}
  {
    RunIsRight(l, events);
  }

  predicate Over(phase: Phase) {
    phase.TurnedAway? || phase.Ended?
  }

  predicate AllOver(w: World) {
    forall i :: 0 <= i < |w.tasks| ==> Over(w.tasks[i])
  }

  lemma FirstInLine(w: World)
    requires InLineRight(w)
    ensures AllOver(w) ==> w.slots.waiting == []
  {
    if w.slots.waiting != [] {
      assert !Over(w.tasks[w.slots.waiting[0]]);
    }
  }

  /** Once every task has ended or was refused, the gate is as it began. */
  lemma IdleGateIsEmpty(l: Limits, events: seq<Event>)
    requires AllOver(Run(l, events))
    ensures Run(l, events).slots == Slots(0, [])
  {
    RunIsRight(l, events);
    var w := Run(l, events);
    FirstInLine(w);
    assert forall i :: i in Holders(w) ==> !Over(w.tasks[i]);
    assert Holders(w) == {};
  }

  lemma {:induction false} NothingGranted(l: Limits, events: seq<Event>)
    requires l.maxActive <= 0
    ensures Run(l, events).granted == [] && Holders(Run(l, events)) == {}
  {
    if events == [] {
      assert Holders(START) == {};
    } else {
      RunIsRight(l, events);
      NothingGranted(l, events[..|events| - 1]);
      RunIsRight(l, events[..|events| - 1]);
      var w := Run(l, events[..|events| - 1]);
      match events[|events| - 1]
      case Finish(task, threw) =>
        assert task < |w.tasks| && w.tasks[task].Running? ==> task in Holders(w);
      case _ =>
    }
  }

  ghost predicate EverRuns(l: Limits) {
    exists events :: Run(l, events).granted != []
  }

  /** The constructor accepts any limit; with none below one does anything ever run. */
  lemma WorkRunsIff(l: Limits)
    ensures EverRuns(l) <==> l.maxActive >= 1
  {
    if l.maxActive >= 1 {
      assert Run(l, [Arrive][..0]) == START;
      assert Run(l, [Arrive]).granted == [0];
    } else {
      forall events
        ensures Run(l, events).granted == []
      {
        NothingGranted(l, events);
      }
    }
  }

  // --- The class ---

  class BoundedConcurrency {
    const limits: Limits
    var active: int
    var waiting: seq<nat>

    ghost function View(): Slots
      reads this
    {
      Slots(active, waiting)
    }

    constructor (maxActive: int, maxWaiting: int)
      ensures limits == Limits(maxActive, maxWaiting) && View() == START.slots
    {
      limits := Limits(maxActive, maxWaiting);
      active, waiting := 0, [];
    }

    /** run() before the work: Refused is ServiceBusyError, Queued awaits the hand-over. */
    method Enter(task: nat) returns (entry: Entry)
      modifies this
      ensures View() == AfterEnter(limits, old(View()), task)
      ensures entry == EntryOf(limits, old(View()))
    {
      if active >= limits.maxActive {
        if |waiting| >= limits.maxWaiting {
          return Refused;
        }
        waiting := waiting + [task];
        entry := Queued;
      } else {
        active := active + 1;
        entry := Admitted;
      }
    }

    /** run() after the work, however that ended. Returns whose promise it resolves. */
    method Leave() returns (next: Option<nat>)
      modifies this
      ensures View() == AfterLeave(old(View()))
      ensures next == NextUp(old(View()))
    {
      if waiting != [] {
        next := Some(waiting[0]);
        waiting := waiting[1..];
      } else {
        next := None;
        active := active - 1;
      }
    }
  }
}
