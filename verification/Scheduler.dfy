/** The round-robin scheduler of kernel/core/thread.c: a fixed table of threads, one of them
    RUNNING, and a selection that scans cyclically from the current slot. */
module Scheduler {
  import opened Options
  import opened Ring

  const ID_LIMIT: nat := 0x8000_0000_0000_0000

  datatype Life = Free | Ready | Running | Exited

  /** `framed`: the saved frame is one that frame_valid accepts, on the thread's own kernel stack. */
  datatype Thread = Thread(id: nat, state: Life, framed: bool)

  const NO_THREAD := Thread(0, Free, false)

  datatype Sched = Sched(threads: seq<Thread>, current: nat, nextId: nat)

  /** What scheduler_check demands of ids, states and saved frames. */
  predicate Ok(s: Sched) {
    && s.current < |s.threads|
    && (forall i :: 0 <= i < |s.threads| ==> ThreadOk(s, i))
    && (forall i, j :: 0 <= i < j < |s.threads| && s.threads[i].state != Free ==> s.threads[i].id != s.threads[j].id)
    && s.threads[0].state != Free && s.threads[0].state != Exited
  }

  predicate ThreadOk(s: Sched, i: nat)
    requires i < |s.threads|
  {
    && (s.threads[i].state == Free ==> s.threads[i].id == 0)
    && (s.threads[i].state != Free ==> 0 < s.threads[i].id < s.nextId)
    && (s.threads[i].state == Running <==> i == s.current)
    && (s.threads[i].state == Ready ==> s.threads[i].framed)
  }

  // ----- What each entry point does -----

  /** The first READY slot at cyclic distance `n` or more from the current one. */
  function Pick(s: Sched, n: nat): (r: Option<nat>)
    requires s.current < |s.threads| && 1 <= n
    ensures r.Some? ==> r.value < |s.threads| && s.threads[r.value].state == Ready
    decreases |s.threads| - n
  {
    if n >= |s.threads| then None
    else if s.threads[At(s.current, n, |s.threads|)].state == Ready then Some(At(s.current, n, |s.threads|))
    else Pick(s, n + 1)
  }

  /** `own`: the frame saved for the leaving thread is on its own kernel stack. */
  function Select(s: Sched, next: nat, exiting: bool, own: bool): Sched
    requires s.current < |s.threads| && next < |s.threads|
  {
    var left := s.threads[s.current].(state := if exiting then Exited else Ready, framed := own);
    var threads := s.threads[s.current := left];
    s.(threads := threads[next := threads[next].(state := Running)], current := next)
  }

  /** thread_yield, a timer tick and a system-call gate select alike. */
  function Switch(s: Sched, own: bool): Sched
    requires s.current < |s.threads|
  {
    if Pick(s, 1) == None then s else Select(s, Pick(s, 1).value, false, own)
  }

  /** thread_exit; None is its "no successor" panic. */
  function Exit(s: Sched): Option<Sched>
    requires s.current < |s.threads|
  {
    if s.current == 0 || Pick(s, 1) == None then None else Some(Select(s, Pick(s, 1).value, true, true))
  }

  function FirstFree(s: Sched, from: nat): (i: nat)
    requires from <= |s.threads|
    ensures from <= i <= |s.threads|
    ensures i < |s.threads| ==> s.threads[i].state == Free
    ensures forall j :: from <= j < i ==> s.threads[j].state != Free
    decreases |s.threads| - from
  {
    if from == |s.threads| || s.threads[from].state == Free then from else FirstFree(s, from + 1)
  }

  function Create(s: Sched, stackOk: bool): (Sched, Option<nat>)
    requires 1 <= |s.threads|
  {
    var i := FirstFree(s, 1);
    if s.nextId >= ID_LIMIT || i == |s.threads| || !stackOk then (s, None)
    else (s.(threads := s.threads[i := Thread(s.nextId, Ready, true)], nextId := s.nextId + 1), Some(s.nextId))
  }

  /** find(): the slot of a live thread id. */
  function Find(s: Sched, id: nat, from: nat): (r: Option<nat>)
    requires from <= |s.threads|
    ensures r.Some? ==> from <= r.value < |s.threads| && s.threads[r.value].state != Free && s.threads[r.value].id == id
    ensures r == None ==> id == 0 || forall i :: from <= i < |s.threads| ==> s.threads[i].state == Free || s.threads[i].id != id
    decreases |s.threads| - from
  {
    if id == 0 || from == |s.threads| then None
    else if s.threads[from].state != Free && s.threads[from].id == id then Some(from)
    else Find(s, id, from + 1)
  }

  function Join(s: Sched, id: nat): (Sched, bool) {
    match Find(s, id, 0)
    case None => (s, false)
    case Some(i) =>
      if i == s.current || i == 0 || s.threads[i].state != Exited then (s, false)
      else (s.(threads := s.threads[i := NO_THREAD]), true)
  }

  // ----- The invariant -----

  lemma SelectKeepsOk(s: Sched, next: nat, exiting: bool, own: bool)
    requires Ok(s) && next < |s.threads| && s.threads[next].state == Ready
    requires exiting ==> s.current != 0
    ensures Ok(Select(s, next, exiting, own)) <==> exiting || own
  {
    var s' := Select(s, next, exiting, own);
    assert ThreadOk(s, next) && ThreadOk(s, s.current);
    if !exiting && !own {
      assert !ThreadOk(s', s.current);
    } else {
      forall i | 0 <= i < |s'.threads|
        ensures ThreadOk(s', i)
        ensures s'.threads[i].id == s.threads[i].id && (s'.threads[i].state == Free <==> s.threads[i].state == Free)
      {
        assert ThreadOk(s, i);
      }
    }
  }

  lemma SwitchKeepsOk(s: Sched, own: bool)
    requires Ok(s)
    ensures Ok(Switch(s, own)) <==> own || Pick(s, 1) == None
  {
    if Pick(s, 1).Some? {
      SelectKeepsOk(s, Pick(s, 1).value, false, own);
    }
  }

  /** The selection takes the nearest READY thread in cyclic order and misses none. */
  lemma {:induction false} PickIsNearest(s: Sched, n: nat, d: nat)
    requires s.current < |s.threads| && 1 <= n <= d < |s.threads|
    requires s.threads[At(s.current, d, |s.threads|)].state == Ready
    ensures Pick(s, n).Some?
    ensures exists m :: n <= m <= d && Pick(s, n).value == At(s.current, m, |s.threads|)
    decreases d - n
  {
    if s.threads[At(s.current, n, |s.threads|)].state != Ready {
      PickIsNearest(s, n + 1, d);
    }
  }

  /** A worker can always exit: whenever a worker runs the bootstrap thread is READY. */
  lemma ExitFindsSuccessor(s: Sched)
    requires Ok(s) && s.current != 0
    ensures s.threads[0].state == Ready
    ensures Exit(s).Some? && Ok(Exit(s).value)
    ensures Exit(s).value.threads[s.current].state == Exited
  {
    assert ThreadOk(s, 0);
    var d := |s.threads| - s.current;
    assert At(s.current, d, |s.threads|) == 0;
    PickIsNearest(s, 1, d);
    assert ThreadOk(s, Pick(s, 1).value);
    SelectKeepsOk(s, Pick(s, 1).value, true, true);
  }

  lemma CreateKeepsOk(s: Sched, stackOk: bool)
    requires Ok(s) && 0 < s.nextId
    ensures Ok(Create(s, stackOk).0)
  {
    var s' := Create(s, stackOk).0;
    forall i | 0 <= i < |s'.threads|
      ensures ThreadOk(s', i)
      ensures s.threads[i].id < s.nextId
    {
      assert ThreadOk(s, i);
    }
  }

  lemma JoinKeepsOk(s: Sched, id: nat)
    requires Ok(s)
    ensures Ok(Join(s, id).0)
  {
    var s' := Join(s, id).0;
    forall i | 0 <= i < |s'.threads|
      ensures ThreadOk(s', i)
    {
      assert ThreadOk(s, i);
    }
    forall i, j | 0 <= i < j < |s'.threads| && s'.threads[i].state != Free
      ensures s'.threads[i].id != s'.threads[j].id
    {
      assert ThreadOk(s, i);
      assert s.threads[i].id != s.threads[j].id;
    }
  }

  // ----- Runs -----

  /** A selection by thread_yield on the thread's own stack, by a tick or by a system call's end
      (`Switches`), or by thread_yield inside a system call, on the gate's exit stack (`GateYields`). */
  datatype Event = Creates(stackOk: bool) | Joins(id: nat) | Switches | GateYields | Exits

  predicate Selects(e: Event) { e == Switches || e == GateYields || e == Exits }

  function Audited(s: Sched): Option<Sched> {
    if Ok(s) then Some(s) else None
  }

  /** One event with the checks the code makes; None halts. Every entry point starts with
      scheduler_check, a selection demands a valid frame of the chosen thread, create and join end
      with another check. */
  function Step(s: Sched, e: Event): Option<Sched>
    requires s.current < |s.threads|
  {
    if !Ok(s) then None
    else if Selects(e) && Pick(s, 1).Some? && !s.threads[Pick(s, 1).value].framed then None
    else
      match e
      case Creates(stackOk) => Audited(Create(s, stackOk).0)
      case Joins(id) => Audited(Join(s, id).0)
      case Switches => Some(Switch(s, true))
      case GateYields => Some(Switch(s, false))
      case Exits => Exit(s)
  }

  predicate Next(s: Sched, e: Event, s': Sched) {
    s.current < |s.threads| && Step(s, e) == Some(s')
  }

  predicate IsRun(states: seq<Sched>, events: seq<Event>) {
    && |states| == |events| + 1
    && Ok(states[0]) && 0 < states[0].nextId
    && forall t :: 0 <= t < |events| ==> Next(states[t], events[t], states[t + 1])
  }

  /** scheduler_initialize: the bootstrap thread alone, RUNNING. */
  function Boot(n: nat): Sched
    requires 0 < n
  {
    Sched(seq(n, i => if i == 0 then Thread(1, Running, false) else NO_THREAD), 0, 2)
  }

  lemma BootOk(n: nat)
    requires 0 < n
    ensures Ok(Boot(n))
  {
    forall i | 0 <= i < n
      ensures ThreadOk(Boot(n), i)
    {
    }
  }

  /** A sound table halts on nothing but an exit of the bootstrap thread, and stays sound unless a
      thread yields on a gate's exit stack to another. */
  lemma HaltsExactly(s: Sched, e: Event)
    requires Ok(s) && 0 < s.nextId
    ensures Step(s, e) == None <==> e == Exits && s.current == 0
    ensures Step(s, e).Some? ==> (Ok(Step(s, e).value) <==> e != GateYields || Pick(s, 1) == None)
  {
    if Pick(s, 1).Some? {
      assert ThreadOk(s, Pick(s, 1).value);
    }
    match e
    case Creates(stackOk) => CreateKeepsOk(s, stackOk);
    case Joins(id) => JoinKeepsOk(s, id);
    case Switches => SwitchKeepsOk(s, true);
    case GateYields => SwitchKeepsOk(s, false);
    case Exits =>
      if s.current != 0 {
        ExitFindsSuccessor(s);
      }
  }

  /** A worker that yields inside a system call always leaves a table that fails the next check,
      whatever entry point makes it: the bootstrap thread is READY, so there is a successor. */
  lemma GateYieldFailsCheck(s: Sched, e: Event)
    requires Ok(s) && 0 < s.nextId && s.current != 0
    ensures Step(s, GateYields).Some?
    ensures var s' := Step(s, GateYields).value;
            && !Ok(s') && s'.current < |s'.threads| && Step(s', e) == None
  {
    HaltsExactly(s, GateYields);
    ExitFindsSuccessor(s);
  }

  lemma NextGrows(s: Sched, e: Event, s': Sched)
    requires Next(s, e, s') && 0 < s.nextId
    ensures |s'.threads| == |s.threads| && s.nextId <= s'.nextId && s'.current < |s'.threads|
    ensures e != GateYields ==> Ok(s')
  {
    HaltsExactly(s, e);
  }

  /** Over every run: exactly one RUNNING thread, the current one, and whenever that is a worker
      the bootstrap thread is READY. The only way to a table that fails its check is a yield on a
      gate's exit stack, and it ends the run. */
  lemma {:induction false} RunOk(states: seq<Sched>, events: seq<Event>, t: nat)
    requires IsRun(states, events) && t < |states|
    ensures |states[t].threads| == |states[0].threads| && 0 < states[t].nextId
    ensures Ok(states[t]) || (t == |events| > 0 && events[t - 1] == GateYields)
    ensures Ok(states[t]) ==> states[t].threads[states[t].current].state == Running
    ensures Ok(states[t]) && states[t].current != 0 ==> states[t].threads[0].state == Ready
    decreases t
  {
    if t > 0 {
      RunOk(states, events, t - 1);
      assert Next(states[t - 1], events[t - 1], states[t]);
      NextGrows(states[t - 1], events[t - 1], states[t]);
    }
    if t < |events| {
      assert Next(states[t], events[t], states[t + 1]);
    }
    if Ok(states[t]) {
      assert ThreadOk(states[t], states[t].current) && ThreadOk(states[t], 0);
    }
  }

  predicate Alive(s: Sched, id: nat) {
    exists i :: 0 <= i < |s.threads| && s.threads[i].state != Free && s.threads[i].id == id
  }

  lemma NextIds(s: Sched, e: Event, s': Sched, id: nat)
    requires Ok(s) && 0 < s.nextId && Next(s, e, s') && Alive(s', id)
    ensures Alive(s, id) || s.nextId <= id < s'.nextId
  {
    var i :| 0 <= i < |s'.threads| && s'.threads[i].state != Free && s'.threads[i].id == id;
    assert ThreadOk(s, s.current);
    if s.threads[i].state != Free {
      assert s.threads[i].id == id;
    }
  }

  /** Thread ids are never reused: an id not alive now, and already given out, is never alive again. */
  lemma {:induction false} IdsNeverReused(states: seq<Sched>, events: seq<Event>, t: nat, u: nat, id: nat)
    requires IsRun(states, events) && t <= u < |states|
    requires id < states[t].nextId && !Alive(states[t], id)
    ensures !Alive(states[u], id) && id < states[u].nextId
    decreases u
  {
    if t < u {
      IdsNeverReused(states, events, t, u - 1, id);
      RunOk(states, events, u - 1);
      assert Next(states[u - 1], events[u - 1], states[u]);
      NextGrows(states[u - 1], events[u - 1], states[u]);
      if Alive(states[u], id) {
        NextIds(states[u - 1], events[u - 1], states[u], id);
      }
    }
  }

  // ----- Bounded waiting -----

  /** Cyclic distance from the current slot to slot `j`, at least 1. */
  function Distance(s: Sched, j: nat): (d: nat)
    requires s.current < |s.threads| && j < |s.threads|
    ensures 1 <= d <= |s.threads|
  {
    if j > s.current then j - s.current else j + |s.threads| - s.current
  }

  function Selections(events: seq<Event>, t: nat, u: nat): nat
    requires t <= u <= |events|
  {
    if t == u then 0 else Selections(events, t, u - 1) + (if Selects(events[u - 1]) then 1 else 0)
  }

  lemma SelectionComesCloser(s: Sched, e: Event, s': Sched, j: nat)
    requires Ok(s) && Next(s, e, s') && Selects(e)
    requires j < |s.threads| && s.threads[j].state == Ready
    ensures s'.current < |s'.threads| == |s.threads|
    ensures s'.current == j || (s'.threads[j] == s.threads[j] && Distance(s', j) < Distance(s, j))
  {
    assert ThreadOk(s, j);
    var d := Distance(s, j);
    assert At(s.current, d, |s.threads|) == j;
    PickIsNearest(s, 1, d);
    var m :| 1 <= m <= d && Pick(s, 1).value == At(s.current, m, |s.threads|);
    assert m < |s.threads|;
  }

  lemma OthersKeepDistance(s: Sched, e: Event, s': Sched, j: nat)
    requires Ok(s) && Next(s, e, s') && !Selects(e)
    requires j < |s.threads| && s.threads[j].state == Ready
    ensures |s'.threads| == |s.threads| && s'.current == s.current && s'.threads[j] == s.threads[j]
  {
  }

  lemma WaitingStep(s: Sched, e: Event, s': Sched, j: nat)
    requires Ok(s) && Next(s, e, s') && j < |s.threads| && s.threads[j].state == Ready
    requires s'.current < |s'.threads| == |s.threads| && s'.current != j
    ensures s'.threads[j] == s.threads[j]
    ensures Distance(s', j) + (if Selects(e) then 1 else 0) <= Distance(s, j)
  {
    if Selects(e) {
      SelectionComesCloser(s, e, s', j);
    } else {
      OthersKeepDistance(s, e, s', j);
    }
  }

  lemma RunCurrent(states: seq<Sched>, events: seq<Event>, t: nat)
    requires IsRun(states, events) && t < |states|
    ensures states[t].current < |states[t].threads|
  {
    if t > 0 {
      RunOk(states, events, t - 1);
      assert Next(states[t - 1], events[t - 1], states[t]);
      NextGrows(states[t - 1], events[t - 1], states[t]);
    }
  }

  lemma SelectionsGrow(events: seq<Event>, t: nat, v: nat, u: nat)
    requires t <= v < u == v + 1 <= |events|
    ensures Selections(events, t, u) == Selections(events, t, v) + (if Selects(events[v]) then 1 else 0)
  {
  }

  lemma RunWaits(states: seq<Sched>, events: seq<Event>, v: nat, j: nat)
    requires IsRun(states, events) && v < |events| && j < |states[v].threads| && states[v].threads[j].state == Ready
    requires states[v + 1].current != j
    ensures states[v].current < |states[v].threads| == |states[v + 1].threads| && states[v + 1].current < |states[v].threads|
    ensures 0 < states[v + 1].nextId
    ensures states[v + 1].threads[j] == states[v].threads[j]
    ensures Distance(states[v + 1], j) + (if Selects(events[v]) then 1 else 0) <= Distance(states[v], j)
  {
    RunOk(states, events, v);
    assert Next(states[v], events[v], states[v + 1]);
    NextGrows(states[v], events[v], states[v + 1]);
    WaitingStep(states[v], events[v], states[v + 1], j);
  }

  /** Until slot `j` is selected it stays READY and every selection brings the scan closer. */
  lemma {:induction false} WaitingShrinks(states: seq<Sched>, events: seq<Event>, t: nat, u: nat, j: nat)
    requires IsRun(states, events) && t <= u < |states|
    requires j < |states[t].threads| && states[t].threads[j].state == Ready
    requires forall v :: t < v <= u ==> states[v].current != j
    ensures states[u].current < |states[u].threads| == |states[t].threads| && states[t].current < |states[t].threads|
    ensures 0 < states[u].nextId
    ensures states[u].threads[j] == states[t].threads[j]
    ensures Distance(states[u], j) + Selections(events, t, u) <= Distance(states[t], j)
    decreases u
  {
    RunOk(states, events, t);
    RunCurrent(states, events, t);
    if t < u {
      var v := u - 1;
      WaitingShrinks(states, events, t, v, j);
      SelectionsGrow(events, t, v, u);
      RunWaits(states, events, v, j);
    }
  }

  /** Bounded waiting: a READY thread at cyclic distance `d` is selected within at most `d`
      selections, whatever threads are created, exit and are joined in between. */
  lemma BoundedWaiting(states: seq<Sched>, events: seq<Event>, t: nat, u: nat, j: nat)
    requires IsRun(states, events) && t <= u < |states|
    requires j < |states[t].threads| && states[t].threads[j].state == Ready
    ensures states[t].current < |states[t].threads|
    ensures Selections(events, t, u) >= Distance(states[t], j) ==> exists v :: t < v <= u && states[v].current == j
  {
    RunCurrent(states, events, t);
    if Selections(events, t, u) >= Distance(states[t], j) && forall v :: t < v <= u ==> states[v].current != j {
      WaitingShrinks(states, events, t, u, j);
    }
  }

  // ----- What the process table relies on -----

  /** The state of a thread by id: what thread_state reports. */
  function StateOf(s: Sched, id: nat): Option<Life> {
    match Find(s, id, 0)
    case None => None
    case Some(i) => Some(s.threads[i].state)
  }

  lemma FoundAt(s: Sched, i: nat)
    requires Ok(s) && i < |s.threads| && s.threads[i].state != Free
    ensures StateOf(s, s.threads[i].id) == Some(s.threads[i].state)
  {
    assert ThreadOk(s, i);
  }

  lemma NotFound(s: Sched, id: nat)
    requires !Alive(s, id)
    ensures StateOf(s, id) == None
  {
  }

  /** The same threads, except possibly `id`, in the same states up to who runs. */
  ghost predicate SameOthers(s: Sched, s': Sched, id: nat) {
    forall other :: other != id ==> SameThread(StateOf(s, other), StateOf(s', other))
  }

  predicate SameThread(a: Option<Life>, b: Option<Life>) {
    (a == None <==> b == None) && (a == Some(Exited) <==> b == Some(Exited))
  }

  /** Slot-wise agreement is enough for agreement by id. */
  lemma SameOthersBySlot(s: Sched, s': Sched, id: nat)
    requires Ok(s) && Ok(s') && |s.threads| == |s'.threads|
    requires forall i :: 0 <= i < |s.threads| ==>
               || ((s.threads[i].state == Free || s.threads[i].id == id) && (s'.threads[i].state == Free || s'.threads[i].id == id))
               || (s.threads[i].state != Free && s'.threads[i].state != Free && s'.threads[i].id == s.threads[i].id
                   && (s.threads[i].state == Exited <==> s'.threads[i].state == Exited))
    ensures SameOthers(s, s', id)
  {
    forall other | other != id
      ensures SameThread(StateOf(s, other), StateOf(s', other))
    {
      if Alive(s, other) {
        var i :| 0 <= i < |s.threads| && s.threads[i].state != Free && s.threads[i].id == other;
        FoundAt(s, i);
        FoundAt(s', i);
      } else {
        NotFound(s, other);
        NotFound(s', other);
      }
    }
  }

  /** A created thread is a new id, present and not exited; no other thread changes. */
  lemma CreateByIds(s: Sched, stackOk: bool)
    requires Ok(s) && 0 < s.nextId && Create(s, stackOk).1.Some?
    ensures var (s', id) := Create(s, stackOk);
            && StateOf(s, id.value) == None && StateOf(s', id.value) == Some(Ready)
            && SameOthers(s, s', id.value)
  {
    var (s', id) := Create(s, stackOk);
    CreateKeepsOk(s, stackOk);
    forall i | 0 <= i < |s.threads|
      ensures s.threads[i].state != Free ==> s.threads[i].id < s.nextId
    {
      assert ThreadOk(s, i);
    }
    NotFound(s, id.value);
    FoundAt(s', FirstFree(s, 1));
    SameOthersBySlot(s, s', id.value);
  }

  /** A join succeeds exactly on an exited worker, and removes that thread and no other. */
  lemma JoinByIds(s: Sched, id: nat)
    requires Ok(s)
    ensures Join(s, id).1 <==> StateOf(s, id) == Some(Exited)
    ensures Join(s, id).1 ==> StateOf(Join(s, id).0, id) == None && SameOthers(s, Join(s, id).0, id)
  {
    var s' := Join(s, id).0;
    JoinKeepsOk(s, id);
    if Find(s, id, 0).Some? {
      assert ThreadOk(s, s.current) && ThreadOk(s, Find(s, id, 0).value);
    }
    if Join(s, id).1 {
      var i := Find(s, id, 0).value;
      forall j | 0 <= j < |s'.threads|
        ensures s'.threads[j].state == Free || s'.threads[j].id != id
      {
        if j != i && s.threads[j].state != Free { assert s.threads[j].id != s.threads[i].id; }
      }
      NotFound(s', id);
      SameOthersBySlot(s, s', id);
    }
  }

  /** An exit marks the leaving thread EXITED and no other. */
  lemma ExitByIds(s: Sched)
    requires Ok(s) && s.current != 0
    ensures Exit(s).Some?
    ensures StateOf(Exit(s).value, s.threads[s.current].id) == Some(Exited)
    ensures SameOthers(s, Exit(s).value, s.threads[s.current].id)
  {
    ExitFindsSuccessor(s);
    assert ThreadOk(s, s.current);
    FoundAt(Exit(s).value, s.current);
    SameOthersBySlot(s, Exit(s).value, s.threads[s.current].id);
  }

  // ----- The table itself -----

  class ThreadTable {
    var threads: seq<Thread>
    var current: nat
    var nextId: nat

    function View(): Sched
      reads this
    {
      Sched(threads, current, nextId)
    }

    /** scheduler_initialize. */
    constructor (n: nat)
      requires 0 < n
      ensures View() == Boot(n) && Ok(View())
    {
      threads := seq(n, i => if i == 0 then Thread(1, Running, false) else NO_THREAD);
      current, nextId := 0, 2;
      new;
      BootOk(n);
    }

    /** scheduler_check decides `Ok`. */
    method SchedulerCheck() returns (ok: bool)
      ensures ok == Ok(View())
    {
      var running, found := 0, false;
      for i := 0 to |threads|
        invariant found <==> current < i
        invariant forall j :: 0 <= j < i ==>
                    && (threads[j].state == Free ==> threads[j].id == 0)
                    && (threads[j].state != Free ==> 0 < threads[j].id < nextId)
                    && (threads[j].state == Running ==> j == current)
                    && (threads[j].state == Ready ==> threads[j].framed)
        invariant forall j, m :: 0 <= j < m < i && threads[j].state != Free ==> threads[j].id != threads[m].id
        invariant running == if current < i && threads[current].state == Running then 1 else 0
      {
        var t := threads[i];
        if i == current { found := true; }
        if t.state == Free {
          if t.id != 0 {
            assert !ThreadOk(View(), i);
            return false;
          }
        } else {
          if t.id == 0 || t.id >= nextId {
            assert !ThreadOk(View(), i);
            return false;
          }
          var dup := HasId(i, t.id);
          if dup { return false; }
          if t.state == Running {
            running := running + 1;
            if i != current {
              assert !ThreadOk(View(), i);
              return false;
            }
          }
          if t.state == Ready && !t.framed {
            assert !ThreadOk(View(), i);
            return false;
          }
        }
      }
      if !found { return false; }
      assert ThreadOk(View(), current) ==> running == 1;
      return running == 1 && threads[current].state == Running && threads[0].state != Free && threads[0].state != Exited;
    }

    method HasId(i: nat, id: nat) returns (dup: bool)
      requires i <= |threads|
      ensures dup <==> exists j :: 0 <= j < i && threads[j].state != Free && threads[j].id == id
    {
      for j := 0 to i
        invariant forall m :: 0 <= m < j ==> threads[m].state == Free || threads[m].id != id
      {
        if threads[j].state != Free && threads[j].id == id { return true; }
      }
      return false;
    }

    /** pick_next: the cyclic scan from the slot after the current one. */
    method PickNext() returns (next: Option<nat>)
      requires current < |threads|
      ensures next == Pick(View(), 1)
    {
      var n := 1;
      while n < |threads|
        invariant 1 <= n && Pick(View(), 1) == Pick(View(), n)
      {
        ModOnce(current, n, |threads|);
        var i := (current + n) % |threads|;
        if threads[i].state == Ready { return Some(i); }
        n := n + 1;
      }
      return None;
    }

    /** select_thread; false is its "invalid_resume" halt. */
    method SelectThread(next: nat, exiting: bool, own: bool) returns (ok: bool)
      requires current < |threads| && next < |threads|
      modifies this`threads, this`current
      ensures ok == old(threads)[next].framed
      ensures View() == if ok then Select(old(View()), next, exiting, own) else old(View())
    {
      if !threads[next].framed { return false; }
      threads := threads[current := threads[current].(state := if exiting then Exited else Ready, framed := own)];
      threads := threads[next := threads[next].(state := Running)];
      current := next;
      return true;
    }

    /** thread_yield, and the selection of sched_tick and user_schedule_next, with the check they
        start with; `own` as for `Select`. */
    method Yield(own: bool) returns (ok: bool)
      requires current < |threads|
      modifies this`threads, this`current
      ensures ok == Step(old(View()), if own then Switches else GateYields).Some?
      ensures ok ==> Step(old(View()), if own then Switches else GateYields) == Some(View())
    {
      ok := SchedulerCheck();
      if !ok { return; }
      var next := PickNext();
      if next.Some? { ok := SelectThread(next.value, false, own); }
    }

    /** thread_exit with its check. */
    method ThreadExit() returns (ok: bool)
      requires current < |threads|
      modifies this`threads, this`current
      ensures ok == Step(old(View()), Exits).Some?
      ensures ok ==> Step(old(View()), Exits) == Some(View())
    {
      ok := SchedulerCheck();
      if !ok { return; }
      if current == 0 { return false; }
      var next := PickNext();
      if next == None { return false; }
      ok := SelectThread(next.value, true, true);
    }

    /** thread_create with its two checks; `ok` false halts. */
    method ThreadCreate(stackOk: bool) returns (ok: bool, id: Option<nat>)
      requires current < |threads|
      modifies this`threads, this`nextId
      ensures ok == Step(old(View()), Creates(stackOk)).Some?
      ensures ok ==> Ok(View()) && (View(), id) == Create(old(View()), stackOk)
    {
      id := None;
      ok := SchedulerCheck();
      if !ok || nextId >= ID_LIMIT { return; }
      var i := 1;
      while i < |threads| && threads[i].state != Free
        invariant 1 <= i <= |threads| && FirstFree(View(), 1) == FirstFree(View(), i)
      {
        i := i + 1;
      }
      if i == |threads| || !stackOk { return; }
      id := Some(nextId);
      threads := threads[i := Thread(nextId, Ready, true)];
      nextId := nextId + 1;
      ok := SchedulerCheck();
    }

    /** thread_join with its two checks; `ok` false halts. */
    method ThreadJoin(id: nat) returns (ok: bool, joined: bool)
      requires current < |threads|
      modifies this`threads
      ensures ok == Step(old(View()), Joins(id)).Some?
      ensures ok ==> Ok(View()) && (View(), joined) == Join(old(View()), id)
    {
      joined := false;
      ok := SchedulerCheck();
      if !ok || id == 0 { return; }
      var i := 0;
      while i < |threads| && (threads[i].state == Free || threads[i].id != id)
        invariant 0 <= i <= |threads| && Find(View(), id, 0) == Find(View(), id, i)
      {
        i := i + 1;
      }
      if i == |threads| || i == current || i == 0 || threads[i].state != Exited { return; }
      threads := threads[i := NO_THREAD];
      ok := SchedulerCheck();
      joined := true;
    }
  }
}
