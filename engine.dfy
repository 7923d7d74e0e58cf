/**
 * The simulator as the program keeps it: the three ready levels and the
 * five semaphore slots are arrays updated in place, the wait lists, the
 * running slot, init, the id counter and the run flag are fields that the
 * commands reassign.  Every command is proved to leave exactly the state
 * the matching function of module System describes, and to keep the
 * invariant; the properties of those functions are proved in
 * properties.dfy.
 */
module Engine {
  import opened Process
  import opened System
  import opened Properties

  /** ListSearch with the comparator findPID: the first position, from the front, holding the id. */
  method FindPid(q: seq<Pcb>, id: nat) returns (r: Option<nat>)
    ensures r == IndexOfPid(q, id)
  {
    var i := 0;
    while i < |q|
      invariant 0 <= i <= |q|
      invariant forall j :: 0 <= j < i ==> q[j].pid != id
    {
      if q[i].pid == id {
        r := Some(i);
        IndexOfPidFirst(q, id, i);
        return;
      }
      i := i + 1;
    }
    r := None;
  }

  /** The first position holding the id is the one IndexOfPid names. */
  lemma IndexOfPidFirst(q: seq<Pcb>, id: nat, i: nat)
    requires i < |q| && q[i].pid == id
    requires forall j :: 0 <= j < i ==> q[j].pid != id
    ensures IndexOfPid(q, id) == Some(i)
  {
    var r := IndexOfPid(q, id);
    assert HasPid(q, id);
    assert r.value <= i;
  }

  class Simulator {
    /** priorityQ: level 0 is the highest. */
    const levels: array<seq<Pcb>>
    /** The semaphore slots. */
    const sems: array<Sem>
    var waitingReply: seq<Pcb>
    var waitingRcv: seq<Pcb>
    var init: Pcb
    var running: Occupant
    var highestPid: nat
    var run: bool
    /** How many processes one ready level holds. */
    const capacity: nat

    predicate Shaped()
    {
      levels.Length == LEVELS && sems.Length == SEMS
    }

    /** The state as one value. */
    function Snapshot(): Sys
      reads this, levels, sems
    {
      Sys(levels[..], sems[..], waitingReply, waitingRcv, init, running, highestPid, run, capacity)
    }

    ghost predicate Valid()
      reads this, levels, sems
    {
      Shaped() && Inv(Snapshot())
    }

    /** The set-up main performs: empty lists, uninitialised semaphores, init with id 0 on the CPU. */
    constructor(capacity: nat)
      ensures Valid() && Snapshot() == Initial(capacity)
      ensures fresh(levels) && fresh(sems)
    {
      levels := new seq<Pcb>[LEVELS](_ => []);
      sems := new Sem[SEMS](_ => Sem(UNUSED, []));
      this.capacity := capacity;
      waitingReply := [];
      waitingRcv := [];
      run := true;
      init := NewPcb(0);
      highestPid := 1;
      running := Init;
      new;
      assert levels[..] == [[], [], []];
      assert sems[..] == seq(SEMS, _ => Sem(UNUSED, []));
      InitialOk(capacity);
    }

    /** The record of whoever holds the CPU. */
    function Me(): (p: Pcb)
      reads this
      ensures p == Current(Snapshot())
    {
      if running.Init? then init else running.pcb
    }

    /** Writes the record of whoever holds the CPU. */
    method SetMe(p: Pcb)
      modifies this
      ensures Snapshot() == SetCurrent(old(Snapshot()), p)
    {
      if running.Init? {
        init := p;
      } else {
        running := User(p);
      }
    }

    /** priorityQSearch: the first level holding the id, or -1. */
    method PriorityQSearch(id: nat) returns (r: int)
      requires Shaped()
      ensures r == LevelSearch(levels[..], id, 0)
    {
      var i := 0;
      while i < LEVELS
        invariant 0 <= i <= LEVELS
        invariant LevelSearch(levels[..], id, 0) == LevelSearch(levels[..], id, i)
      {
        var found := FindPid(levels[i], id);
        if found.Some? {
          return i;
        }
        i := i + 1;
      }
      return -1;
    }

    /** semSearch: the first initialised slot whose list holds the id, or -1. */
    method SemSearch(id: nat) returns (r: int)
      requires Shaped()
      ensures r == System.SemSearch(sems[..], id, 0)
    {
      var i := 0;
      while i < SEMS
        invariant 0 <= i <= SEMS
        invariant System.SemSearch(sems[..], id, 0) == System.SemSearch(sems[..], id, i)
      {
        if sems[i].value != UNUSED {
          var found := FindPid(sems[i].waiters, id);
          if found.Some? {
            return i;
          }
        }
        i := i + 1;
      }
      return -1;
    }

    /**
     * The search kill_K, send_S and procinfo_I share: the running slot,
     * init, the levels, the initialised semaphores, reply-wait, receive-wait.
     */
    method Find(id: nat) returns (place: Place)
      requires Shaped()
      ensures place == Locate(Snapshot(), id)
    {
      if Me().pid == id {
        return AtRunning;
      }
      if init.pid == id {
        return AtInit;
      }
      var l := PriorityQSearch(id);
      if l >= 0 {
        var i := FindPid(levels[l], id);
        return InLevel(l, i.value);
      }
      var k := SemSearch(id);
      if k >= 0 {
        var i := FindPid(sems[k].waiters, id);
        return InSem(k, i.value);
      }
      var i := FindPid(waitingReply, id);
      if i.Some? {
        return InReply(i.value);
      }
      i := FindPid(waitingRcv, id);
      if i.Some? {
        return InRcv(i.value);
      }
      return Nowhere;
    }

    /**
     * thereIsNoProc, with the semaphore loop reading each slot's own list:
     * true exactly when init is the only process left.
     */
    method ThereIsNoProc() returns (r: bool)
      requires Shaped()
      ensures r == NoOtherProc(Snapshot())
    {
      var i := 0;
      while i < LEVELS
        invariant 0 <= i <= LEVELS
        invariant forall l :: 0 <= l < i ==> levels[l] == []
      {
        if levels[i] != [] {
          return false;
        }
        i := i + 1;
      }
      if waitingRcv != [] || waitingReply != [] {
        return false;
      }
      i := 0;
      while i < SEMS
        invariant 0 <= i <= SEMS
        invariant forall k :: 0 <= k < i ==> !(sems[k].value != UNUSED && sems[k].waiters != [])
      {
        if sems[i].value != UNUSED && sems[i].waiters != [] {
          return false;
        }
        i := i + 1;
      }
      return running.Init?;
    }

    /**
     * enqueueProc for a process other than init: the process's own level,
     * then the other two in increasing order, each taken when it has room.
     * `failed` reports that all three were full (the process is dropped).
     */
    method EnqueueProc(p: Pcb) returns (failed: bool)
      requires Shaped() && p.priority < LEVELS
      modifies levels
      ensures Snapshot() == Admit(old(Snapshot()), p)
      ensures failed <==> !Admits(old(Snapshot()), p)
    {
      ghost var s := Snapshot();
      var l := p.priority;
      if |levels[l]| >= capacity {
        // the first other level
        ghost var lower := if p.priority == 0 then 1 else 0;
        l := 0;
        while l == p.priority
          invariant l <= lower && (l < lower ==> l == p.priority)
          decreases lower - l
        {
          l := l + 1;
        }
        if |levels[l]| >= capacity {
          // the remaining level
          var first := l;
          ghost var other := if p.priority == 2 then 1 else 2;
          l := 0;
          while l == p.priority || l == first
            invariant l <= other && (l < other ==> l == p.priority || l == first)
            decreases other - l
          {
            l := l + 1;
          }
          if |levels[l]| >= capacity {
            return true;
          }
        }
      }
      assert l == AdmitLevel(s.levels, capacity, p.priority);
      levels[l] := [p] + levels[l];
      return false;
    }

    /** createProc: a fresh record under the counter's value; the counter steps on, wrapping at 65535. */
    method CreateProc() returns (p: Pcb)
      modifies this
      ensures p == NewPcb(old(highestPid))
      ensures Snapshot() == old(Snapshot()).(highestPid := NextPid(old(highestPid)))
    {
      if highestPid == PID_WRAP {
        p := NewPcb(highestPid);
        highestPid := 0;
      } else {
        p := NewPcb(highestPid);
        highestPid := (highestPid + 1) % UINT_RANGE;
      }
    }

    /** Undoes createProc's step of the counter after a failed admission. */
    method StepBack()
      requires highestPid <= PID_WRAP
      modifies this
      ensures Snapshot() == old(Snapshot()).(highestPid := if old(highestPid) == 0 then PID_WRAP else old(highestPid) - 1)
    {
      if highestPid == 0 {
        highestPid := PID_WRAP;
      } else {
        highestPid := highestPid - 1;
      }
    }

    /**
     * runNextProc: trims the first non-empty level of 0, 1, 2 and runs that
     * process, clearing its mailbox if it was BLOCKED; with all levels empty
     * init runs.
     */
    method RunNextProc()
      requires Shaped()
      modifies this, levels
      ensures Snapshot() == Dispatch(old(Snapshot()))
    {
      ghost var s := Snapshot();
      var l := 0;
      if levels[0] == [] {
        l := 1;
        if levels[1] == [] {
          l := 2;
        }
      }
      assert levels[l] == [] ==> FirstNonEmpty(s.levels, 0) == -1;
      assert levels[l] != [] ==> FirstNonEmpty(s.levels, 0) == l;
      if levels[l] == [] {
        init := init.(state := Running);
        running := Init;
      } else {
        var q := levels[l];
        levels[l] := Trim(q);
        var p := Last(q);
        if p.state == Blocked {
          p := p.(remote := UNUSED, msg := [], state := Running);
        }
        running := User(p);
      }
    }

    /** deleteProc for a victim already taken off its list, the running process, or init. */
    method DeleteProc(v: Victim)
      requires Shaped()
      modifies this, levels
      ensures Snapshot() == System.DeleteProc(old(Snapshot()), v)
    {
      match v
      case InitVictim =>
        var alone := ThereIsNoProc();
        if alone {
          run := false;
        }
      case RunningVictim =>
        RunNextProc();
      case Detached =>
    }

    /** create_C */
    method Create() returns (failed: bool)
      requires Valid()
      modifies this, levels
      ensures Valid() && Snapshot() == System.Create(old(Snapshot()))
      ensures failed <==> Snapshot() == old(Snapshot())
    {
      ghost var s := Snapshot();
      SpawnCases(s, NewPcb(s.highestPid));
      var p := CreateProc();
      failed := EnqueueProc(p);
      if failed {
        StepBack();
      }
      assert NextPid(s.highestPid) != s.highestPid;
      assert Valid() by {
        CreateFacts(s);
      }
    }

    /** fork_F */
    method Fork() returns (failed: bool)
      requires Valid()
      modifies this, levels
      ensures Valid() && Snapshot() == System.Fork(old(Snapshot()))
      ensures failed <==> Snapshot() == old(Snapshot())
    {
      ghost var s := Snapshot();
      if running.Init? {
        failed := true;
      } else {
        SpawnCases(s, Child(s, running.pcb));
        var p := CreateProc();
        var parent := running.pcb;
        p := p.(priority := parent.priority, remote := parent.remote, msg := parent.msg);
        failed := EnqueueProc(p);
        if failed {
          StepBack();
        }
        assert NextPid(s.highestPid) != s.highestPid;
      }
      assert Valid() by {
        ForkFacts(s);
      }
    }

    /** exit_E */
    method Exit()
      requires Valid()
      modifies this, levels
      ensures Valid() && Snapshot() == System.Exit(old(Snapshot()))
    {
      ghost var s := Snapshot();
      DeleteProc(if running.Init? then InitVictim else RunningVictim);
      assert Valid() by {
        ExitFacts(s);
      }
    }

    /** kill_K */
    method Kill(id: nat)
      requires Valid()
      modifies this, levels, sems
      ensures Valid() && Snapshot() == System.Kill(old(Snapshot()), id)
    {
      ghost var s := Snapshot();
      KillCases(s, id);
      var place := Find(id);
      match place {
        case AtRunning => DeleteProc(if running.Init? then InitVictim else RunningVictim);
        case AtInit => DeleteProc(InitVictim);
        case InLevel(l, i) => levels[l] := RemoveAt(levels[l], i);
        case InSem(k, i) => sems[k] := sems[k].(waiters := RemoveAt(sems[k].waiters, i));
        case InReply(i) => waitingReply := RemoveAt(waitingReply, i);
        case InRcv(i) => waitingRcv := RemoveAt(waitingRcv, i);
        case Nowhere =>
      }
      assert Valid() by {
        KillKeepsInv(s, id);
      }
    }

    /** quantum_Q */
    method Quantum()
      requires Valid()
      modifies this, levels
      ensures Valid() && Snapshot() == System.Quantum(old(Snapshot()))
    {
      ghost var s := Snapshot();
      QuantumCases(s);
      var p := Me().(state := Ready);
      if p.priority < LOWEST {
        p := p.(priority := p.priority + 1);
      }
      assert p == Expired(s);
      if running.Init? {
        init := p;
      } else {
        var _ := EnqueueProc(p);
      }
      RunNextProc();
      assert Valid() by {
        QuantumKeepsInv(s);
      }
    }

    /** The mailbox write of send_S where the target was found. */
    method Deliver(place: Place, from: nat, text: string)
      requires Valid() && PlaceOk(Snapshot(), place)
      modifies this, levels, sems
      ensures Snapshot() == System.Deliver(old(Snapshot()), place, from, text)
    {
      match place
      case AtRunning => SetMe(Mail(Me(), from, text));
      case AtInit => init := Mail(init, from, text);
      case InLevel(l, i) => levels[l] := levels[l][i := Mail(levels[l][i], from, text)];
      case InSem(k, i) =>
        var m := sems[k];
        sems[k] := m.(waiters := m.waiters[i := Mail(m.waiters[i], from, text)]);
      case InReply(i) => waitingReply := waitingReply[i := Mail(waitingReply[i], from, text)];
      case InRcv(i) =>
        var p := waitingRcv[i];
        waitingRcv := RemoveAt(waitingRcv, i);
        assert WaiterOk(p);
        var _ := EnqueueProc(Mail(p, from, text));
      case Nowhere =>
    }

    /** send_S */
    method Send(id: nat, text: string)
      requires Valid() && ValidMsg(text)
      modifies this, levels, sems
      ensures Valid() && Snapshot() == System.Send(old(Snapshot()), id, text)
    {
      ghost var s := Snapshot();
      SendCases(s, id, text);
      var place := Find(id);
      if place != Nowhere {
        Deliver(place, Me().pid, text);
        if running.User? {
          waitingReply := [running.pcb.(state := Blocked)] + waitingReply;
          RunNextProc();
        }
      }
      assert Valid() by {
        SendKeepsInv(s, id, text);
      }
    }

    /** receive_R; `letter` is the message it surfaces, if any. */
    method Receive() returns (letter: Option<Letter>)
      requires Valid()
      modifies this, levels
      ensures Valid() && Snapshot() == System.Receive(old(Snapshot()))
      ensures letter == Inbox(old(Snapshot()))
    {
      ghost var s := Snapshot();
      ReceiveCases(s);
      var me := Me();
      if me.msg != [] {
        letter := Some(Letter(me.remote, me.msg));
        SetMe(me.(msg := [], remote := UNUSED));
        assert Snapshot() == SetCurrent(s, Current(s).(msg := [], remote := UNUSED));
      } else {
        letter := None;
        if running.User? {
          waitingRcv := [me.(state := Blocked)] + waitingRcv;
          assert Snapshot() == AwaitingMessage(s);
          RunNextProc();
        }
      }
      assert Valid() by {
        ReceiveKeepsInv(s);
      }
    }

    /** reply_Y */
    method Reply(id: nat, text: string) returns (found: bool)
      requires Valid() && ValidMsg(text)
      modifies this, levels
      ensures Valid() && Snapshot() == System.Reply(old(Snapshot()), id, text)
      ensures found <==> HasPid(old(waitingReply), id)
    {
      ghost var s := Snapshot();
      ReplyCases(s, id, text);
      var i := FindPid(waitingReply, id);
      found := i.Some?;
      if found {
        var p := waitingReply[i.value];
        waitingReply := RemoveAt(waitingReply, i.value);
        assert WaiterOk(p);
        var _ := EnqueueProc(Mail(p, Me().pid, text));
      }
      assert Valid() by {
        ReplyFacts(s, id, text);
      }
    }

    /** sem_N */
    method SemN(k: nat, v: int) returns (done: bool)
      requires Valid()
      modifies sems
      ensures Valid() && Snapshot() == SemInit(old(Snapshot()), k, v)
      ensures done <==> k < SEMS && old(sems[..])[k].value == UNUSED
    {
      ghost var s := Snapshot();
      SemInitCases(s, k, v);
      done := false;
      if k < SEMS && sems[k].value == UNUSED {
        sems[k] := Sem(v, []);
        done := true;
      }
      assert Valid() by {
        SemInitFacts(s, k, v);
      }
    }

    /** sem_P */
    method SemP(k: nat)
      requires Valid() && k < SEMS
      modifies this, levels, sems
      ensures Valid() && Snapshot() == System.SemP(old(Snapshot()), k)
    {
      ghost var s := Snapshot();
      SemPCases(s, k);
      var m := sems[k];
      if m.value != UNUSED && running.User? {
        if m.value <= 0 {
          sems[k] := Sem(m.value - 1, [running.pcb.(state := Blocked)] + m.waiters);
          assert Snapshot() == BlockedOnSem(s, k);
          RunNextProc();
        } else {
          sems[k] := m.(value := m.value - 1);
        }
      }
      assert Valid() by {
        SemPKeepsInv(s, k);
      }
    }

    /** sem_V */
    method SemV(k: nat)
      requires Valid() && k < SEMS
      modifies levels, sems
      ensures Valid() && Snapshot() == System.SemV(old(Snapshot()), k)
    {
      ghost var s := Snapshot();
      SemVCases(s, k);
      var m := sems[k];
      if m.value != UNUSED {
        if m.waiters == [] {
          sems[k] := m.(value := m.value + 1);
        } else {
          var p := Last(m.waiters);
          sems[k] := Sem(m.value + 1, Trim(m.waiters));
          assert Snapshot() == Released(s, k);
          assert WaiterOk(p) by {
            assert SemOk(s.sems[k]);
          }
          var _ := EnqueueProc(p.(state := Ready));
        }
      }
      assert Valid() by {
        SemVKeepsInv(s, k);
      }
    }

    /** The lookup of procinfo_I: the record of the process with the id, if any; nothing changes. */
    method ProcInfo(id: nat) returns (r: Option<Pcb>)
      requires Shaped()
      ensures r == Lookup(Snapshot(), id)
      ensures r.Some? <==> Present(Snapshot(), id)
      ensures r.Some? ==> r.value.pid == id
    {
      LookupFacts(Snapshot(), id);
      var place := Find(id);
      if place == Nowhere {
        return None;
      }
      match place
      case AtRunning => r := Some(Me());
      case AtInit => r := Some(init);
      case InLevel(l, i) => r := Some(levels[l][i]);
      case InSem(k, i) => r := Some(sems[k].waiters[i]);
      case InReply(i) => r := Some(waitingReply[i]);
      case InRcv(i) => r := Some(waitingRcv[i]);
    }
  }
}
