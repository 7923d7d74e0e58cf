/**
 * Two places where the program as written departs from what it evidently
 * means, each modelled as written, with a state that exhibits the
 * difference; the rest of the model uses the corrected behaviour.
 */
module Findings {
  import opened Process
  import opened System
  import opened Properties

  // ---------------------------------------------------------------------
  // thereIsNoProc reads the ready levels where it means the semaphore lists
  // ---------------------------------------------------------------------

  /**
   * thereIsNoProc as written: its last loop tests priorityQ[i] for the five
   * semaphore ids instead of that slot's list.  Levels 0..2 were already
   * found empty, and ids 3 and 4 index past the three ready levels; those
   * reads are taken here to find nothing.
   */
  predicate NoOtherProcAsWritten(s: Sys)
  {
    (forall l :: 0 <= l < |s.levels| ==> s.levels[l] == []) &&
    s.waitingRcv == [] && s.waitingReply == [] &&
    (forall k :: 0 <= k < |s.sems| && k < |s.levels| ==> !(s.sems[k].value != UNUSED && s.levels[k] != [])) &&
    s.running.Init?
  }

  /** deleteProc of init as written: the run ends whenever the as-written test passes. */
  function KillInitAsWritten(s: Sys): Sys
  {
    if NoOtherProcAsWritten(s) then s.(run := false) else s
  }

  /** The as-written test never counts a semaphore waiter, so it passes whenever the corrected one does. */
  lemma NoOtherProcAsWrittenWeaker(s: Sys)
    ensures NoOtherProc(s) ==> NoOtherProcAsWritten(s)
    ensures NoOtherProcAsWritten(s) <==>
      NoOtherProc(s.(sems := seq(|s.sems|, k requires 0 <= k < |s.sems| => s.sems[k].(waiters := []))))
  {
  }

  /** One process blocked on semaphore 0, initialised to 0, while init runs. */
  function SemWaiterState(): Sys
  {
    var s := Initial(1);
    s.(sems := s.sems[0 := Sem(-1, [Pcb(1, 0, Blocked, UNUSED, [])])], highestPid := 2)
  }

  /** That state is well formed. */
  lemma SemWaiterStateOk()
    ensures Inv(SemWaiterState())
  {
    var m := Sem(-1, [Pcb(1, 0, Blocked, UNUSED, [])]);
    InitialOk(1);
    assert SemOk(m);
    SemsPut(Initial(1).sems, 0, m);
  }

  /** That state holds exactly one process besides init. */
  lemma SemWaiterStateCensus()
    ensures Census(SemWaiterState()) == multiset{(1, 0)}
  {
    var s := SemWaiterState();
    var m := Sem(-1, [Pcb(1, 0, Blocked, UNUSED, [])]);
    var sems0 := Initial(1).sems;
    assert s.sems == sems0[0 := m];
    assert Tags(m.waiters) == multiset{(1, 0)} by {
      TagsPrepend(Pcb(1, 0, Blocked, UNUSED, []), []);
    }
    OnlyWaiters(sems0, 0, m);
    LevelTagsEmpty(s.levels);
    assert LevelTags(s.levels) == multiset{};
    assert Queued(s) == multiset{(1, 0)};
  }

  /** Filling one slot of an otherwise empty set of wait lists. */
  lemma OnlyWaiters(sems: seq<Sem>, k: nat, m: Sem)
    requires k < |sems| && forall j :: 0 <= j < |sems| ==> sems[j].waiters == []
    ensures SemTags(sems[k := m]) == Tags(m.waiters)
  {
    SemTagsUpdate(sems, k, m);
    SemTagsEmpty(sems);
    assert Tags(sems[k].waiters) == multiset{};
    Cancel(SemTags(sems[k := m]), Tags(m.waiters), multiset{});
  }

  /**
   * In that state the as-written test lets init be killed, ending the run
   * while process 1 still exists; the corrected test refuses, and kill_K of
   * init then changes nothing.
   */
  lemma KillInitWithSemaphoreWaiter()
    ensures var s := SemWaiterState();
      Inv(s) && Census(s) == multiset{(1, 0)} &&
      KillInitAsWritten(s).run == false &&
      !NoOtherProc(s) && Kill(s, 0) == s
  {
    var s := SemWaiterState();
    SemWaiterStateOk();
    SemWaiterStateCensus();
    assert s.sems[0].value != UNUSED && s.sems[0].waiters != [];
    assert Locate(s, 0) == AtRunning;
  }

  // ---------------------------------------------------------------------
  // create_C and fork_F step the counter back past the wrap
  // ---------------------------------------------------------------------

  /**
   * create_C and fork_F as written: after a failed admission each runs
   * highestPID-- on the 32-bit unsigned counter createProc has already
   * advanced, wrapped from 65535 to 0.
   */
  function SpawnAsWritten(s: Sys, p: Pcb): Sys
    requires Inv(s) && p.priority < LEVELS
  {
    var s1 := s.(highestPid := NextPid(s.highestPid));
    if Admits(s1, p) then Admit(s1, p)
    else s.(highestPid := (NextPid(s.highestPid) + UINT_RANGE - 1) % UINT_RANGE)
  }

  /** create_C as written. */
  function CreateAsWritten(s: Sys): Sys
    requires Inv(s)
  {
    SpawnAsWritten(s, NewPcb(s.highestPid))
  }

  /** fork_F as written: init is refused before any counter step. */
  function ForkAsWritten(s: Sys): Sys
    requires Inv(s)
  {
    if s.running.Init? then s else SpawnAsWritten(s, Child(s, s.running.pcb))
  }

  /** Away from the wrap the step back restores the counter and the program agrees with the corrected model. */
  lemma CreateAsWrittenAwayFromWrap(s: Sys)
    requires Inv(s) && s.highestPid != PID_WRAP
    ensures CreateAsWritten(s) == Create(s)
  {
    SpawnCases(s, NewPcb(s.highestPid));
  }

  /** The same for fork_F. */
  lemma ForkAsWrittenAwayFromWrap(s: Sys)
    requires Inv(s) && s.highestPid != PID_WRAP
    ensures ForkAsWritten(s) == Fork(s)
  {
    if s.running.User? {
      SpawnCases(s, Child(s, s.running.pcb));
    }
  }

  /**
   * Every ready level of capacity 1 holds one READY process (ids 1, 2, 3),
   * the counter is at 65535, and `running` holds the CPU.
   */
  function FullAtWrap(running: Occupant): Sys
  {
    Sys([[NewPcb(1)], [NewPcb(2).(priority := 1)], [NewPcb(3).(priority := 2)]],
        seq(SEMS, _ => Sem(UNUSED, [])), [], [], NewPcb(0), running, PID_WRAP, true, 1)
  }

  lemma FullAtWrapOk(running: Occupant)
    requires running.Init? || running == User(NewPcb(4).(state := Running))
    ensures Inv(FullAtWrap(running))
    ensures forall l :: 0 <= l < LEVELS ==> |FullAtWrap(running).levels[l]| == 1
  {
    var s := FullAtWrap(running);
    assert LevelMembersOk(s.levels[0]) && LevelMembersOk(s.levels[1]) && LevelMembersOk(s.levels[2]);
    assert SemsOk(s.sems) by {
      forall k | 0 <= k < SEMS
        ensures SemOk(s.sems[k])
      {
        assert s.sems[k] == Sem(UNUSED, []);
      }
    }
  }

  /**
   * With the counter at 65535 and every level full, the failed create
   * leaves the counter at 4294967295, outside the ids createProc wraps
   * within, while the corrected model leaves the state as it was.
   */
  lemma CreateAsWrittenPastWrap()
    ensures var s := FullAtWrap(Init);
      Inv(s) && !Admits(s, NewPcb(PID_WRAP)) &&
      CreateAsWritten(s).highestPid == UINT_RANGE - 1 &&
      CreateAsWritten(s).highestPid > PID_WRAP &&
      CreateAsWritten(s) == s.(highestPid := 4294967295) &&
      Create(s) == s
  {
    var s := FullAtWrap(Init);
    FullAtWrapOk(Init);
    SpawnCases(s, NewPcb(PID_WRAP));
  }

  /** The same step back in fork_F, with process 4 running. */
  lemma ForkAsWrittenPastWrap()
    ensures var s := FullAtWrap(User(NewPcb(4).(state := Running)));
      Inv(s) && !Admits(s, Child(s, s.running.pcb)) &&
      ForkAsWritten(s) == s.(highestPid := 4294967295) &&
      ForkAsWritten(s).highestPid > PID_WRAP &&
      Fork(s) == s
  {
    var me := User(NewPcb(4).(state := Running));
    var s := FullAtWrap(me);
    FullAtWrapOk(me);
    SpawnCases(s, Child(s, s.running.pcb));
  }
}
