/**
 * The whole scheduler state as one value, its invariant, and the effect of
 * every scheduler and synchronisation operation as a function of the state
 * before it.  The class in engine.dfy updates the same state in place and
 * is proved to agree with these functions.
 */
module System {
  import opened Process

  /** A semaphore slot: its counter and the processes blocked on it. */
  datatype Sem = Sem(value: int, waiters: seq<Pcb>)

  /** Who holds the CPU: the idle process init, or an ordinary process. */
  datatype Occupant = Init | User(pcb: Pcb)

  /**
   * The scheduler's globals: three ready levels (priorityQ), five semaphore
   * slots, the reply-wait and receive-wait lists, the init record, the
   * running slot, the id counter highestPID, the run flag and the capacity
   * of each ready level.
   */
  datatype Sys = Sys(
    levels: seq<seq<Pcb>>,
    sems: seq<Sem>,
    waitingReply: seq<Pcb>,
    waitingRcv: seq<Pcb>,
    init: Pcb,
    running: Occupant,
    highestPid: nat,
    run: bool,
    capacity: nat)

  /** The state main sets up: empty lists, uninitialised semaphores, init with id 0 running. */
  function Initial(capacity: nat): Sys
  {
    Sys([[], [], []], seq(SEMS, _ => Sem(UNUSED, [])), [], [],
        NewPcb(0), Init, 1, true, capacity)
  }

  // ---------------------------------------------------------------------
  // Invariant
  // ---------------------------------------------------------------------

  predicate PcbOk(p: Pcb)
  {
    p.priority < LEVELS && ValidMsg(p.msg)
  }

  /** A process on a ready level is READY, or still BLOCKED if it was unblocked and has not run since. */
  predicate LevelMemberOk(p: Pcb)
  {
    PcbOk(p) && p.state != Running
  }

  predicate WaiterOk(p: Pcb)
  {
    PcbOk(p) && p.state == Blocked
  }

  predicate LevelMembersOk(q: seq<Pcb>)
  {
    forall j :: 0 <= j < |q| ==> LevelMemberOk(q[j])
  }

  predicate WaitersOk(q: seq<Pcb>)
  {
    forall j :: 0 <= j < |q| ==> WaiterOk(q[j])
  }

  /**
   * A slot never has more waiters than the magnitude of a negative counter;
   * in particular a slot whose counter reads UNUSED has none.
   */
  predicate SemOk(m: Sem)
  {
    WaitersOk(m.waiters) && (m.waiters == [] || |m.waiters| <= -m.value)
  }

  predicate LevelsOk(levels: seq<seq<Pcb>>, capacity: nat)
  {
    |levels| == LEVELS &&
    forall l :: 0 <= l < LEVELS ==> |levels[l]| <= capacity && LevelMembersOk(levels[l])
  }

  predicate SemsOk(sems: seq<Sem>)
  {
    |sems| == SEMS && forall k :: 0 <= k < SEMS ==> SemOk(sems[k])
  }

  /** Everything except the running slot and init. */
  predicate QueuesOk(s: Sys)
  {
    LevelsOk(s.levels, s.capacity) && SemsOk(s.sems) &&
    WaitersOk(s.waitingReply) && WaitersOk(s.waitingRcv) &&
    s.highestPid <= PID_WRAP
  }

  /** init is never blocked. */
  predicate InitOk(s: Sys)
  {
    PcbOk(s.init) && s.init.state != Blocked
  }

  /** An ordinary running process is not BLOCKED, and while it runs init is READY. */
  predicate RunnerOk(s: Sys)
  {
    s.running.User? ==> PcbOk(s.running.pcb) && s.running.pcb.state != Blocked && s.init.state == Ready
  }

  predicate Inv(s: Sys)
  {
    QueuesOk(s) && InitOk(s) && RunnerOk(s)
  }

  // ---------------------------------------------------------------------
  // Census of the processes other than init
  // ---------------------------------------------------------------------

  /** The semaphore slots' wait lists, slot by slot. */
  function WaitLists(sems: seq<Sem>): (r: seq<seq<Pcb>>)
    ensures |r| == |sems| && forall k :: 0 <= k < |sems| ==> r[k] == sems[k].waiters
  {
    seq(|sems|, k requires 0 <= k < |sems| => sems[k].waiters)
  }

  function SemTags(sems: seq<Sem>): multiset<(nat, nat)>
  {
    LevelTags(WaitLists(sems))
  }

  /** Every process held in some list. */
  function Queued(s: Sys): multiset<(nat, nat)>
  {
    LevelTags(s.levels) + SemTags(s.sems) + Tags(s.waitingReply) + Tags(s.waitingRcv)
  }

  /** Every live process other than init, as (id, priority) pairs. */
  function Census(s: Sys): multiset<(nat, nat)>
  {
    Queued(s) + (if s.running.User? then multiset{Tag(s.running.pcb)} else multiset{})
  }

  lemma SemTagsUpdate(sems: seq<Sem>, k: nat, m: Sem)
    requires k < |sems|
    ensures SemTags(sems[k := m]) + Tags(sems[k].waiters) == SemTags(sems) + Tags(m.waiters)
  {
    assert WaitLists(sems[k := m]) == WaitLists(sems)[k := m.waiters];
    LevelTagsUpdate(WaitLists(sems), k, m.waiters);
  }

  lemma SemTagsEmpty(sems: seq<Sem>)
    ensures SemTags(sems) == multiset{} <==> forall k :: 0 <= k < |sems| ==> sems[k].waiters == []
  {
    LevelTagsEmpty(WaitLists(sems));
  }

  // ---------------------------------------------------------------------
  // Finding a process by id
  // ---------------------------------------------------------------------

  /** The record of whoever holds the CPU. */
  function Current(s: Sys): Pcb
  {
    if s.running.Init? then s.init else s.running.pcb
  }

  /** Writes the record of whoever holds the CPU. */
  function SetCurrent(s: Sys, p: Pcb): Sys
  {
    if s.running.Init? then s.(init := p) else s.(running := User(p))
  }

  /** priorityQSearch from level `from` on: the first level holding the id, or -1. */
  function LevelSearch(levels: seq<seq<Pcb>>, id: nat, from: nat): (r: int)
    requires from <= |levels|
    ensures r == -1 || from <= r < |levels|
    ensures r >= 0 ==> HasPid(levels[r], id)
    ensures r >= 0 ==> forall l :: from <= l < r ==> !HasPid(levels[l], id)
    ensures r == -1 ==> forall l :: from <= l < |levels| ==> !HasPid(levels[l], id)
    decreases |levels| - from
  {
    if from == |levels| then -1
    else if HasPid(levels[from], id) then from
    else LevelSearch(levels, id, from + 1)
  }

  /** semSearch looks only at initialised slots. */
  predicate Watches(m: Sem, id: nat)
  {
    m.value != UNUSED && HasPid(m.waiters, id)
  }

  /** semSearch from slot `from` on: the first initialised slot holding the id, or -1. */
  function SemSearch(sems: seq<Sem>, id: nat, from: nat): (r: int)
    requires from <= |sems|
    ensures r == -1 || from <= r < |sems|
    ensures r >= 0 ==> Watches(sems[r], id)
    ensures r >= 0 ==> forall k :: from <= k < r ==> !Watches(sems[k], id)
    ensures r == -1 ==> forall k :: from <= k < |sems| ==> !Watches(sems[k], id)
    decreases |sems| - from
  {
    if from == |sems| then -1
    else if Watches(sems[from], id) then from
    else SemSearch(sems, id, from + 1)
  }

  /** The places a process can be found, in the order the source searches them. */
  datatype Place =
    | AtRunning
    | AtInit
    | InLevel(l: nat, i: nat)
    | InSem(k: nat, i: nat)
    | InReply(i: nat)
    | InRcv(i: nat)
    | Nowhere

  predicate PlaceOk(s: Sys, place: Place)
  {
    match place
    case InLevel(l, i) => l < |s.levels| && i < |s.levels[l]|
    case InSem(k, i) => k < |s.sems| && i < |s.sems[k].waiters|
    case InReply(i) => i < |s.waitingReply|
    case InRcv(i) => i < |s.waitingRcv|
    case _ => true
  }

  /** The record stored at a place. */
  function RecordAt(s: Sys, place: Place): Pcb
    requires PlaceOk(s, place) && place != Nowhere
  {
    match place
    case AtRunning => Current(s)
    case AtInit => s.init
    case InLevel(l, i) => s.levels[l][i]
    case InSem(k, i) => s.sems[k].waiters[i]
    case InReply(i) => s.waitingReply[i]
    case InRcv(i) => s.waitingRcv[i]
  }

  /** Some structure the source searches holds a process with this id. */
  predicate Present(s: Sys, id: nat)
  {
    Current(s).pid == id || s.init.pid == id ||
    (exists l :: 0 <= l < |s.levels| && HasPid(s.levels[l], id)) ||
    (exists k :: 0 <= k < |s.sems| && Watches(s.sems[k], id)) ||
    HasPid(s.waitingReply, id) || HasPid(s.waitingRcv, id)
  }

  /**
   * The lookup shared by kill_K, send_S and procinfo_I: running slot, init,
   * levels 0..2, initialised semaphores 0..4, reply-wait, receive-wait.
   */
  function Locate(s: Sys, id: nat): (r: Place)
    ensures PlaceOk(s, r)
    ensures r != Nowhere ==> RecordAt(s, r).pid == id
    ensures r == Nowhere <==> !Present(s, id)
  {
    if Current(s).pid == id then AtRunning
    else if s.init.pid == id then AtInit
    else
      var l := LevelSearch(s.levels, id, 0);
      if l >= 0 then InLevel(l, IndexOfPid(s.levels[l], id).value)
      else
        var k := SemSearch(s.sems, id, 0);
        if k >= 0 then InSem(k, IndexOfPid(s.sems[k].waiters, id).value)
        else
          match IndexOfPid(s.waitingReply, id)
          case Some(i) => InReply(i)
          case None =>
            match IndexOfPid(s.waitingRcv, id)
            case Some(i) => InRcv(i)
            case None => Nowhere
  }

  /** procinfo_I's lookup: the record of the process with this id, if any. */
  function Lookup(s: Sys, id: nat): Option<Pcb>
  {
    var place := Locate(s, id);
    if place == Nowhere then None else Some(RecordAt(s, place))
  }

  // ---------------------------------------------------------------------
  // Scheduler core
  // ---------------------------------------------------------------------

  /** The level enqueueProc puts a process of priority `prio` in, or -1 when all three are full. */
  function AdmitLevel(levels: seq<seq<Pcb>>, capacity: nat, prio: nat): (r: int)
    requires |levels| == LEVELS && prio < LEVELS
    ensures r == -1 <==> forall l :: 0 <= l < LEVELS ==> |levels[l]| >= capacity
    ensures r != -1 ==> 0 <= r < LEVELS && |levels[r]| < capacity
    ensures r != prio ==> |levels[prio]| >= capacity
    ensures r != -1 && r != prio ==> forall l :: 0 <= l < r && l != prio ==> |levels[l]| >= capacity
  {
    if |levels[prio]| < capacity then prio
    else
      var lower := if prio == 0 then 1 else 0;
      var other := if prio == 2 then 1 else 2;
      if |levels[lower]| < capacity then lower
      else if |levels[other]| < capacity then other
      else -1
  }

  predicate Admits(s: Sys, p: Pcb)
    requires |s.levels| == LEVELS && p.priority < LEVELS
  {
    AdmitLevel(s.levels, s.capacity, p.priority) >= 0
  }

  /** enqueueProc for a process other than init: prepend to the chosen level; the priority field is left as it was. */
  function Admit(s: Sys, p: Pcb): Sys
    requires |s.levels| == LEVELS && p.priority < LEVELS
  {
    var l := AdmitLevel(s.levels, s.capacity, p.priority);
    if l < 0 then s else s.(levels := s.levels[l := [p] + s.levels[l]])
  }

  /** The first non-empty level from `from` on, or -1. */
  function FirstNonEmpty(levels: seq<seq<Pcb>>, from: nat): (r: int)
    requires from <= |levels|
    ensures r == -1 || from <= r < |levels|
    ensures r >= 0 ==> levels[r] != [] && forall l :: from <= l < r ==> levels[l] == []
    ensures r == -1 ==> forall l :: from <= l < |levels| ==> levels[l] == []
    decreases |levels| - from
  {
    if from == |levels| then -1
    else if levels[from] != [] then from
    else FirstNonEmpty(levels, from + 1)
  }

  /** A dispatched process that was BLOCKED gets RUNNING and an emptied mailbox; a READY one is left as it was. */
  function Resume(p: Pcb): Pcb
  {
    if p.state == Blocked then p.(remote := UNUSED, msg := [], state := Running) else p
  }

  /** runNextProc: the oldest process of the first non-empty level runs, or else init. */
  function Dispatch(s: Sys): Sys
  {
    var l := FirstNonEmpty(s.levels, 0);
    if l < 0 then s.(init := s.init.(state := Running), running := Init)
    else s.(levels := s.levels[l := Trim(s.levels[l])], running := User(Resume(Last(s.levels[l]))))
  }

  /**
   * thereIsNoProc with the semaphore loop reading each initialised slot's
   * own list (the source reads priorityQ[i] there; see findings.dfy).
   */
  predicate NoOtherProc(s: Sys)
  {
    (forall l :: 0 <= l < |s.levels| ==> s.levels[l] == []) &&
    s.waitingRcv == [] && s.waitingReply == [] &&
    (forall k :: 0 <= k < |s.sems| ==> !(s.sems[k].value != UNUSED && s.sems[k].waiters != [])) &&
    s.running.Init?
  }

  /** What deleteProc is handed: init, the running process, or a process already taken off its list. */
  datatype Victim = InitVictim | RunningVictim | Detached

  /** deleteProc: init is deleted only when it is alone, ending the run; a running victim triggers a dispatch. */
  function DeleteProc(s: Sys, v: Victim): Sys
  {
    match v
    case InitVictim => if NoOtherProc(s) then s.(run := false) else s
    case RunningVictim => Dispatch(s)
    case Detached => s
  }

  /** createProc's counter step: from 65535 back to 0, otherwise up by one in 32 bits. */
  function NextPid(c: nat): nat
  {
    if c == PID_WRAP then 0 else (c + 1) % UINT_RANGE
  }

  /**
   * Admits a fresh record built from the counter.  A failed admission
   * leaves the whole state, the counter included, as it was.
   */
  function Spawn(s: Sys, p: Pcb): Sys
    requires Inv(s) && p.priority < LEVELS
  {
    var s1 := s.(highestPid := NextPid(s.highestPid));
    if Admits(s1, p) then Admit(s1, p) else s
  }

  /** create_C */
  function Create(s: Sys): Sys
    requires Inv(s)
  {
    Spawn(s, NewPcb(s.highestPid))
  }

  /** The child fork_F builds: the parent's priority, peer and mailbox under the next id, READY. */
  function Child(s: Sys, parent: Pcb): Pcb
  {
    NewPcb(s.highestPid).(priority := parent.priority, remote := parent.remote, msg := parent.msg)
  }

  /** fork_F */
  function Fork(s: Sys): Sys
    requires Inv(s)
  {
    if s.running.Init? then s
    else Spawn(s, Child(s, s.running.pcb))
  }

  /** exit_E */
  function Exit(s: Sys): Sys
  {
    DeleteProc(s, if s.running.Init? then InitVictim else RunningVictim)
  }

  /** kill_K */
  function Kill(s: Sys, id: nat): Sys
  {
    match Locate(s, id)
    case AtRunning => Exit(s)
    case AtInit => DeleteProc(s, InitVictim)
    case InLevel(l, i) => DeleteProc(s.(levels := s.levels[l := RemoveAt(s.levels[l], i)]), Detached)
    case InSem(k, i) =>
      DeleteProc(s.(sems := s.sems[k := s.sems[k].(waiters := RemoveAt(s.sems[k].waiters, i))]), Detached)
    case InReply(i) => DeleteProc(s.(waitingReply := RemoveAt(s.waitingReply, i)), Detached)
    case InRcv(i) => DeleteProc(s.(waitingRcv := RemoveAt(s.waitingRcv, i)), Detached)
    case Nowhere => s
  }

  /** One step down the levels, stopping at the lowest. */
  function Degrade(prio: nat): nat
  {
    if prio < LOWEST then prio + 1 else prio
  }

  /** quantum_Q: the running process becomes READY one level lower and is re-enqueued (init never is), then a dispatch. */
  function Quantum(s: Sys): Sys
    requires Inv(s)
  {
    var p := Current(s).(state := Ready, priority := Degrade(Current(s).priority));
    if s.running.Init? then Dispatch(s.(init := p))
    else Dispatch(Admit(s, p))
  }

  // ---------------------------------------------------------------------
  // Messaging and semaphores
  // ---------------------------------------------------------------------

  /** The mailbox write of send_S at the place the target was found; a receive-waiter is moved to a ready level. */
  function Deliver(s: Sys, place: Place, from: nat, text: string): Sys
    requires Inv(s) && PlaceOk(s, place)
  {
    match place
    case AtRunning => SetCurrent(s, Mail(Current(s), from, text))
    case AtInit => s.(init := Mail(s.init, from, text))
    case InLevel(l, i) => s.(levels := s.levels[l := s.levels[l][i := Mail(s.levels[l][i], from, text)]])
    case InSem(k, i) =>
      var m := s.sems[k];
      s.(sems := s.sems[k := m.(waiters := m.waiters[i := Mail(m.waiters[i], from, text)])])
    case InReply(i) => s.(waitingReply := s.waitingReply[i := Mail(s.waitingReply[i], from, text)])
    case InRcv(i) => Admit(s.(waitingRcv := RemoveAt(s.waitingRcv, i)), Mail(s.waitingRcv[i], from, text))
    case Nowhere => s
  }

  /** send_S: an ordinary sender then blocks on the reply-wait list and a dispatch follows; init keeps running. */
  function Send(s: Sys, id: nat, text: string): Sys
    requires Inv(s)
  {
    var place := Locate(s, id);
    if place == Nowhere then s
    else
      var s1 := Deliver(s, place, Current(s).pid, text);
      if s1.running.Init? then s1
      else Dispatch(s1.(waitingReply := [s1.running.pcb.(state := Blocked)] + s1.waitingReply))
  }

  /** What receive_R surfaces: the pending message, if the mailbox is not empty. */
  function Inbox(s: Sys): Option<Letter>
  {
    if Current(s).msg != [] then Some(Letter(Current(s).remote, Current(s).msg)) else None
  }

  /** receive_R */
  function Receive(s: Sys): Sys
  {
    var me := Current(s);
    if me.msg != [] then SetCurrent(s, me.(msg := [], remote := UNUSED))
    else if s.running.Init? then s
    else Dispatch(s.(waitingRcv := [me.(state := Blocked)] + s.waitingRcv))
  }

  /** reply_Y: only a process on the reply-wait list is taken off it, enqueued and given the text. */
  function Reply(s: Sys, id: nat, text: string): Sys
    requires Inv(s)
  {
    match IndexOfPid(s.waitingReply, id)
    case None => s
    case Some(i) =>
      Admit(s.(waitingReply := RemoveAt(s.waitingReply, i)), Mail(s.waitingReply[i], Current(s).pid, text))
  }

  /** sem_N */
  function SemInit(s: Sys, k: nat, v: int): Sys
    requires Inv(s)
  {
    if k >= SEMS then s
    else if s.sems[k].value == UNUSED then s.(sems := s.sems[k := Sem(v, [])])
    else s
  }

  /** sem_P */
  function SemP(s: Sys, k: nat): Sys
    requires Inv(s) && k < SEMS
  {
    var m := s.sems[k];
    if m.value == UNUSED || s.running.Init? then s
    else if m.value <= 0 then
      Dispatch(s.(sems := s.sems[k := Sem(m.value - 1, [s.running.pcb.(state := Blocked)] + m.waiters)]))
    else s.(sems := s.sems[k := m.(value := m.value - 1)])
  }

  /** sem_V */
  function SemV(s: Sys, k: nat): Sys
    requires Inv(s) && k < SEMS
  {
    var m := s.sems[k];
    if m.value == UNUSED then s
    else if m.waiters == [] then s.(sems := s.sems[k := m.(value := m.value + 1)])
    else Admit(s.(sems := s.sems[k := Sem(m.value + 1, Trim(m.waiters))]), Last(m.waiters).(state := Ready))
  }
}
