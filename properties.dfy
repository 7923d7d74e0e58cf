/**
 * What the scheduler's operations guarantee: each keeps the invariant, each
 * accounts for every process (the census of (id, priority) pairs changes
 * only by the process created, killed, or lost when no level can take it,
 * and by the one priority a quantum expiry lowers), and each has the
 * observable effect the source describes.
 */
module Properties {
  import opened Process
  import opened System

  /** The set-up in main satisfies the invariant and holds no process besides init. */
  lemma InitialOk(capacity: nat)
    ensures Inv(Initial(capacity))
    ensures Census(Initial(capacity)) == multiset{}
    ensures NoOtherProc(Initial(capacity))
  {
    var s := Initial(capacity);
    LevelTagsEmpty(s.levels);
    SemTagsEmpty(s.sems);
  }

  /** init is alone exactly when the census is empty: this is what makes killing init safe. */
  lemma NoOtherProcIffAlone(s: Sys)
    requires Inv(s)
    ensures NoOtherProc(s) <==> Census(s) == multiset{}
  {
    LevelTagsEmpty(s.levels);
    SemTagsEmpty(s.sems);
    TagsEmpty(s.waitingReply);
    TagsEmpty(s.waitingRcv);
    assert forall k :: 0 <= k < |s.sems| && s.sems[k].value == UNUSED ==> s.sems[k].waiters == [] by {
      forall k | 0 <= k < |s.sems| && s.sems[k].value == UNUSED
        ensures s.sems[k].waiters == []
      {
        assert SemOk(s.sems[k]);
      }
    }
    var a, b, c, d := LevelTags(s.levels), SemTags(s.sems), Tags(s.waitingReply), Tags(s.waitingRcv);
    var r: multiset<(nat, nat)> := if s.running.User? then multiset{Tag(s.running.pcb)} else multiset{};
    assert Census(s) == a + b + c + d + r;
    if Census(s) == multiset{} {
      assert a == multiset{} && b == multiset{} && c == multiset{} && d == multiset{} && r == multiset{};
    }
  }


  // ---------------------------------------------------------------------
  // Frame helpers: one list of the state replaced at a time
  // ---------------------------------------------------------------------

  lemma LevelsPut(levels: seq<seq<Pcb>>, capacity: nat, l: nat, q: seq<Pcb>)
    requires LevelsOk(levels, capacity) && l < LEVELS && |q| <= capacity && LevelMembersOk(q)
    ensures LevelsOk(levels[l := q], capacity)
  {
  }

  lemma SemsPut(sems: seq<Sem>, k: nat, m: Sem)
    requires SemsOk(sems) && k < SEMS && SemOk(m)
    ensures SemsOk(sems[k := m])
  {
  }

  lemma MembersPrepend(p: Pcb, q: seq<Pcb>)
    requires LevelMemberOk(p) && LevelMembersOk(q)
    ensures LevelMembersOk([p] + q)
  {
    assert forall j :: 1 <= j < |[p] + q| ==> ([p] + q)[j] == q[j - 1];
  }

  lemma WaitersPrepend(p: Pcb, q: seq<Pcb>)
    requires WaiterOk(p) && WaitersOk(q)
    ensures WaitersOk([p] + q)
  {
    assert forall j :: 1 <= j < |[p] + q| ==> ([p] + q)[j] == q[j - 1];
  }

  lemma QueuedLevel(s: Sys, l: nat, q: seq<Pcb>)
    requires l < |s.levels|
    ensures Queued(s.(levels := s.levels[l := q])) + Tags(s.levels[l]) == Queued(s) + Tags(q)
  {
    LevelTagsUpdate(s.levels, l, q);
    var s' := s.(levels := s.levels[l := q]);
    var rest := SemTags(s.sems) + Tags(s.waitingReply) + Tags(s.waitingRcv);
    assert Queued(s') == LevelTags(s'.levels) + rest;
    assert Queued(s) == LevelTags(s.levels) + rest;
    Regroup(LevelTags(s'.levels), LevelTags(s.levels), Tags(s.levels[l]), Tags(q), rest);
  }

  lemma QueuedSem(s: Sys, k: nat, m: Sem)
    requires k < |s.sems|
    ensures Queued(s.(sems := s.sems[k := m])) + Tags(s.sems[k].waiters) == Queued(s) + Tags(m.waiters)
  {
    SemTagsUpdate(s.sems, k, m);
    var s' := s.(sems := s.sems[k := m]);
    var rest := LevelTags(s.levels) + Tags(s.waitingReply) + Tags(s.waitingRcv);
    assert Queued(s') == SemTags(s'.sems) + rest;
    assert Queued(s) == SemTags(s.sems) + rest;
    Regroup(SemTags(s'.sems), SemTags(s.sems), Tags(s.sems[k].waiters), Tags(m.waiters), rest);
  }

  lemma CensusLevel(s: Sys, l: nat, q: seq<Pcb>)
    requires l < |s.levels|
    ensures Census(s.(levels := s.levels[l := q])) + Tags(s.levels[l]) == Census(s) + Tags(q)
  {
    var s' := s.(levels := s.levels[l := q]);
    QueuedLevel(s, l, q);
    var r: multiset<(nat, nat)> := if s.running.User? then multiset{Tag(s.running.pcb)} else multiset{};
    Regroup(Queued(s'), Queued(s), Tags(s.levels[l]), Tags(q), r);
  }

  lemma CensusSem(s: Sys, k: nat, m: Sem)
    requires k < |s.sems|
    ensures Census(s.(sems := s.sems[k := m])) + Tags(s.sems[k].waiters) == Census(s) + Tags(m.waiters)
  {
    var s' := s.(sems := s.sems[k := m]);
    QueuedSem(s, k, m);
    var r: multiset<(nat, nat)> := if s.running.User? then multiset{Tag(s.running.pcb)} else multiset{};
    Regroup(Queued(s'), Queued(s), Tags(s.sems[k].waiters), Tags(m.waiters), r);
  }

  lemma CensusReply(s: Sys, q: seq<Pcb>)
    ensures Census(s.(waitingReply := q)) + Tags(s.waitingReply) == Census(s) + Tags(q)
  {
    var s' := s.(waitingReply := q);
    var r: multiset<(nat, nat)> := if s.running.User? then multiset{Tag(s.running.pcb)} else multiset{};
    var rest := LevelTags(s.levels) + SemTags(s.sems) + Tags(s.waitingRcv) + r;
    assert Census(s') == Tags(q) + rest;
    assert Census(s) == Tags(s.waitingReply) + rest;
  }

  lemma CensusRcv(s: Sys, q: seq<Pcb>)
    ensures Census(s.(waitingRcv := q)) + Tags(s.waitingRcv) == Census(s) + Tags(q)
  {
    var s' := s.(waitingRcv := q);
    var r: multiset<(nat, nat)> := if s.running.User? then multiset{Tag(s.running.pcb)} else multiset{};
    var rest := LevelTags(s.levels) + SemTags(s.sems) + Tags(s.waitingReply) + r;
    assert Census(s') == Tags(q) + rest;
    assert Census(s) == Tags(s.waitingRcv) + rest;
  }

  /** Blocking the running process on the reply-wait list keeps it in the lists, once. */
  lemma QueuedBlockReply(s: Sys, p: Pcb)
    ensures Queued(s.(waitingReply := [p] + s.waitingReply)) == Queued(s) + multiset{Tag(p)}
  {
    TagsPrepend(p, s.waitingReply);
    var rest := LevelTags(s.levels) + SemTags(s.sems) + Tags(s.waitingRcv);
    assert Queued(s.(waitingReply := [p] + s.waitingReply)) == Tags([p] + s.waitingReply) + rest;
    assert Queued(s) == Tags(s.waitingReply) + rest;
  }

  lemma QueuedBlockRcv(s: Sys, p: Pcb)
    ensures Queued(s.(waitingRcv := [p] + s.waitingRcv)) == Queued(s) + multiset{Tag(p)}
  {
    TagsPrepend(p, s.waitingRcv);
    var rest := LevelTags(s.levels) + SemTags(s.sems) + Tags(s.waitingReply);
    assert Queued(s.(waitingRcv := [p] + s.waitingRcv)) == Tags([p] + s.waitingRcv) + rest;
    assert Queued(s) == Tags(s.waitingRcv) + rest;
  }

  lemma MembersRemoveAt(q: seq<Pcb>, i: nat)
    requires LevelMembersOk(q) && i < |q|
    ensures LevelMembersOk(RemoveAt(q, i))
  {
  }

  lemma WaitersRemoveAt(q: seq<Pcb>, i: nat)
    requires WaitersOk(q) && i < |q|
    ensures WaitersOk(RemoveAt(q, i))
  {
  }

  lemma WaitersTrim(q: seq<Pcb>)
    requires WaitersOk(q) && q != []
    ensures WaitersOk(Trim(q)) && WaiterOk(Last(q))
  {
    assert forall x :: 0 <= x < |Trim(q)| ==> Trim(q)[x] == q[x];
  }

  // ---------------------------------------------------------------------
  // Admission (enqueueProc)
  // ---------------------------------------------------------------------

  /**
   * Admission prepends the record to the chosen level and changes nothing
   * else; when every level is full the state is left as it was.
   */
  lemma AdmitEffect(s: Sys, p: Pcb)
    requires |s.levels| == LEVELS && p.priority < LEVELS
    ensures Admit(s, p) == s.(levels := Admit(s, p).levels)
    ensures Admits(s, p) ==>
      var l := AdmitLevel(s.levels, s.capacity, p.priority);
      Admit(s, p).levels[l] == [p] + s.levels[l] &&
      forall j :: 0 <= j < LEVELS && j != l ==> Admit(s, p).levels[j] == s.levels[j]
    ensures !Admits(s, p) ==> Admit(s, p) == s
  {
  }

  /** Admission adds exactly the admitted process to the census. */
  lemma AdmitCensus(s: Sys, p: Pcb)
    requires |s.levels| == LEVELS && p.priority < LEVELS
    ensures Admits(s, p) ==> Queued(Admit(s, p)) == Queued(s) + multiset{Tag(p)}
    ensures Admits(s, p) ==> Census(Admit(s, p)) == Census(s) + multiset{Tag(p)}
  {
    var l := AdmitLevel(s.levels, s.capacity, p.priority);
    if l >= 0 {
      var r := Admit(s, p);
      CensusLevel(s, l, [p] + s.levels[l]);
      QueuedLevel(s, l, [p] + s.levels[l]);
      TagsPrepend(p, s.levels[l]);
      Added(Queued(r), Queued(s), Tags(s.levels[l]), Tag(p));
      Added(Census(r), Census(s), Tags(s.levels[l]), Tag(p));
    }
  }

  /** Admission of a well-formed record keeps the invariant; the level it joins stays within capacity. */
  lemma AdmitKeepsInv(s: Sys, p: Pcb)
    requires QueuesOk(s) && LevelMemberOk(p)
    ensures QueuesOk(Admit(s, p))
    ensures Inv(s) ==> Inv(Admit(s, p))
  {
    var l := AdmitLevel(s.levels, s.capacity, p.priority);
    if l >= 0 {
      MembersPrepend(p, s.levels[l]);
      LevelsPut(s.levels, s.capacity, l, [p] + s.levels[l]);
    }
  }

  /**
   * A newly admitted process never overtakes one already waiting at its
   * level or at a higher priority: the next dispatch picks the same process.
   */
  lemma AdmitDoesNotOvertake(s: Sys, p: Pcb)
    requires |s.levels| == LEVELS && p.priority < LEVELS && Admits(s, p)
    requires 0 <= FirstNonEmpty(s.levels, 0) <= AdmitLevel(s.levels, s.capacity, p.priority)
    ensures Dispatch(Admit(s, p)).running == Dispatch(s).running
  {
    var f := FirstNonEmpty(s.levels, 0);
    var a := AdmitLevel(s.levels, s.capacity, p.priority);
    var levels' := Admit(s, p).levels;
    assert levels' == s.levels[a := [p] + s.levels[a]];
    var f' := FirstNonEmpty(levels', 0);
    assert levels'[f] != [];
    assert f' == f;
    assert Last(levels'[f]) == Last(s.levels[f]);
  }

  // ---------------------------------------------------------------------
  // Dispatch (runNextProc)
  // ---------------------------------------------------------------------

  /** Dispatch keeps the invariant and moves one process from the levels to the CPU, or hands the CPU to init. */
  lemma DispatchFacts(s: Sys)
    requires QueuesOk(s) && InitOk(s) && s.init.state == Ready
    ensures Inv(Dispatch(s))
    ensures Census(Dispatch(s)) == Queued(s)
  {
    var l := FirstNonEmpty(s.levels, 0);
    if l >= 0 {
      DispatchKeepsInv(s, l);
    }
    DispatchCounts(s);
  }

  /** A dispatch moves one process from the lists to the CPU, or none. */
  lemma DispatchCounts(s: Sys)
    ensures Census(Dispatch(s)) == Queued(s)
  {
    var l := FirstNonEmpty(s.levels, 0);
    if l >= 0 {
      DispatchCensus(s, l);
    }
  }

  lemma DispatchKeepsInv(s: Sys, l: nat)
    requires QueuesOk(s) && InitOk(s) && s.init.state == Ready
    requires l == FirstNonEmpty(s.levels, 0)
    ensures Inv(Dispatch(s))
  {
    var q := s.levels[l];
    assert LevelMemberOk(q[|q| - 1]);
    assert LevelMembersOk(Trim(q)) by {
      assert forall x :: 0 <= x < |Trim(q)| ==> Trim(q)[x] == q[x];
    }
    LevelsPut(s.levels, s.capacity, l, Trim(q));
  }

  lemma DispatchCensus(s: Sys, l: nat)
    requires l == FirstNonEmpty(s.levels, 0)
    ensures Census(Dispatch(s)) == Queued(s)
  {
    var q := s.levels[l];
    var d := Dispatch(s);
    assert d == s.(levels := s.levels[l := Trim(q)], running := User(Resume(Last(q))));
    QueuedLevel(s, l, Trim(q));
    TagsTrim(q);
    assert (Queued(d) + multiset{Tag(Last(q))}) + Tags(Trim(q)) == Queued(s) + Tags(Trim(q));
    Cancel(Queued(d) + multiset{Tag(Last(q))}, Queued(s), Tags(Trim(q)));
    assert Tag(Resume(Last(q))) == Tag(Last(q));
  }

  /**
   * Strict priority and first-in first-out: the oldest process of the
   * lowest-numbered non-empty level runs; if it was BLOCKED it becomes
   * RUNNING with an empty mailbox and no peer, if READY it keeps its state.
   */
  lemma DispatchOrder(s: Sys, l: nat)
    requires l < |s.levels| && s.levels[l] != []
    requires forall j :: 0 <= j < l ==> s.levels[j] == []
    ensures Dispatch(s).levels == s.levels[l := Trim(s.levels[l])]
    ensures Dispatch(s).running.User?
    ensures var p, r := Last(s.levels[l]), Dispatch(s).running.pcb;
      r.pid == p.pid && r.priority == p.priority &&
      (p.state == Blocked ==> r.state == Running && r.msg == [] && r.remote == UNUSED) &&
      (p.state != Blocked ==> r == p)
    ensures Dispatch(s).init == s.init
  {
    assert FirstNonEmpty(s.levels, 0) == l;
  }

  /** With all three levels empty, init runs and its state is RUNNING. */
  lemma DispatchIdle(s: Sys)
    requires forall l :: 0 <= l < |s.levels| ==> s.levels[l] == []
    ensures Dispatch(s).running == Init && Dispatch(s).init.state == Running
    ensures Dispatch(s).levels == s.levels && Dispatch(s).init.pid == s.init.pid
  {
  }

  /** A dispatch changes only the levels, the CPU and init. */
  lemma DispatchFrame(s: Sys)
    ensures Dispatch(s) == s.(levels := Dispatch(s).levels, running := Dispatch(s).running, init := Dispatch(s).init)
  {
  }

  // ---------------------------------------------------------------------
  // Process registry: create_C, fork_F, kill_K, exit_E
  // ---------------------------------------------------------------------

  /** The state before admission: only the counter has moved. */
  function Stepped(s: Sys): Sys
  {
    s.(highestPid := NextPid(s.highestPid))
  }

  lemma SteppedOk(s: Sys)
    requires Inv(s)
    ensures Inv(Stepped(s)) && Census(Stepped(s)) == Census(s)
  {
  }

  lemma SpawnCases(s: Sys, p: Pcb)
    requires Inv(s) && p.priority < LEVELS
    ensures Admits(s, p) == Admits(Stepped(s), p)
    ensures Admits(s, p) ==> Spawn(s, p) == Admit(Stepped(s), p)
    ensures !Admits(s, p) ==> Spawn(s, p) == s
  {
  }

  /**
   * A spawned record joins a level and the counter advances, or nothing
   * changes at all; the census grows by exactly the new record.
   */
  lemma SpawnFacts(s: Sys, p: Pcb)
    requires Inv(s) && LevelMemberOk(p)
    ensures Inv(Spawn(s, p))
    ensures Admits(s, p) ==>
      var l := AdmitLevel(s.levels, s.capacity, p.priority);
      Spawn(s, p) == s.(levels := s.levels[l := [p] + s.levels[l]], highestPid := NextPid(s.highestPid)) &&
      Census(Spawn(s, p)) == Census(s) + multiset{Tag(p)}
    ensures !Admits(s, p) ==> Spawn(s, p) == s
  {
    SpawnCases(s, p);
    SteppedOk(s);
    AdmitKeepsInv(Stepped(s), p);
    AdmitCensus(Stepped(s), p);
    AdmitEffect(Stepped(s), p);
  }

  /**
   * create_C: the new process takes the counter's value as id, priority 0,
   * READY, no peer and an empty mailbox; the counter advances and wraps
   * from 65535 to 0; if no level takes the process nothing changes.
   */
  lemma CreateFacts(s: Sys)
    requires Inv(s)
    ensures Inv(Create(s))
    ensures var p := Pcb(s.highestPid, 0, Ready, UNUSED, []);
      Admits(s, p) ==>
        var l := AdmitLevel(s.levels, s.capacity, 0);
        Create(s).levels == s.levels[l := [p] + s.levels[l]] &&
        Create(s).highestPid == (if s.highestPid == 65535 then 0 else s.highestPid + 1) &&
        Census(Create(s)) == Census(s) + multiset{(s.highestPid, 0)} &&
        Create(s).running == s.running
    ensures !Admits(s, NewPcb(s.highestPid)) ==> Create(s) == s
  {
    SpawnFacts(s, NewPcb(s.highestPid));
  }

  /**
   * fork_F: forking init changes nothing; otherwise the child has the next
   * id, the parent's priority, peer and mailbox, and state READY.
   */
  lemma ForkFacts(s: Sys)
    requires Inv(s)
    ensures Inv(Fork(s))
    ensures s.running.Init? ==> Fork(s) == s
    ensures s.running.User? ==>
      var par := s.running.pcb;
      var c := Pcb(s.highestPid, par.priority, Ready, par.remote, par.msg);
      (Admits(s, c) ==>
        var l := AdmitLevel(s.levels, s.capacity, par.priority);
        Fork(s).levels == s.levels[l := [c] + s.levels[l]] &&
        Census(Fork(s)) == Census(s) + multiset{(s.highestPid, par.priority)} &&
        Fork(s).running == s.running) &&
      (!Admits(s, c) ==> Fork(s) == s)
  {
    if s.running.User? {
      SpawnFacts(s, Child(s, s.running.pcb));
    }
  }

  /** exit_E: the running process leaves the census and a dispatch follows; init exits only when alone. */
  lemma ExitFacts(s: Sys)
    requires Inv(s)
    ensures Inv(Exit(s))
    ensures s.running.User? ==> Census(Exit(s)) + multiset{Tag(s.running.pcb)} == Census(s)
    ensures s.running.Init? ==> Exit(s) == (if Census(s) == multiset{} then s.(run := false) else s)
  {
    NoOtherProcIffAlone(s);
    if s.running.User? {
      DispatchFacts(s);
    }
  }

  /** The process kill_K removes, if it is in one of the lists. */
  predicate Listed(place: Place)
  {
    place.InLevel? || place.InSem? || place.InReply? || place.InRcv?
  }

  /** The state kill_K leaves when it takes a listed process out of its list. */
  function Unlisted(s: Sys, place: Place): Sys
    requires PlaceOk(s, place) && Listed(place)
  {
    match place
    case InLevel(l, i) => s.(levels := s.levels[l := RemoveAt(s.levels[l], i)])
    case InSem(k, i) => s.(sems := s.sems[k := s.sems[k].(waiters := RemoveAt(s.sems[k].waiters, i))])
    case InReply(i) => s.(waitingReply := RemoveAt(s.waitingReply, i))
    case InRcv(i) => s.(waitingRcv := RemoveAt(s.waitingRcv, i))
  }

  lemma UnlistedOk(s: Sys, place: Place)
    requires Inv(s) && PlaceOk(s, place) && Listed(place)
    ensures Inv(Unlisted(s, place))
  {
    match place
    case InLevel(l, i) =>
      MembersRemoveAt(s.levels[l], i);
      LevelsPut(s.levels, s.capacity, l, RemoveAt(s.levels[l], i));
    case InSem(k, i) =>
      var m := s.sems[k];
      assert SemOk(m);
      WaitersRemoveAt(m.waiters, i);
      SemsPut(s.sems, k, m.(waiters := RemoveAt(m.waiters, i)));
    case InReply(i) => WaitersRemoveAt(s.waitingReply, i);
    case InRcv(i) => WaitersRemoveAt(s.waitingRcv, i);
  }

  lemma UnlistedCensus(s: Sys, place: Place)
    requires PlaceOk(s, place) && Listed(place)
    ensures Census(Unlisted(s, place)) + multiset{Tag(RecordAt(s, place))} == Census(s)
  {
    var r := Unlisted(s, place);
    match place
    case InLevel(l, i) =>
      var q := s.levels[l];
      CensusLevel(s, l, RemoveAt(q, i));
      TagsRemoveAt(q, i);
      Removed(Census(r), Census(s), Tags(RemoveAt(q, i)), Tag(q[i]));
    case InSem(k, i) =>
      var m := s.sems[k];
      CensusSem(s, k, m.(waiters := RemoveAt(m.waiters, i)));
      TagsRemoveAt(m.waiters, i);
      Removed(Census(r), Census(s), Tags(RemoveAt(m.waiters, i)), Tag(m.waiters[i]));
    case InReply(i) =>
      CensusReply(s, RemoveAt(s.waitingReply, i));
      TagsRemoveAt(s.waitingReply, i);
      Removed(Census(r), Census(s), Tags(RemoveAt(s.waitingReply, i)), Tag(s.waitingReply[i]));
    case InRcv(i) =>
      CensusRcv(s, RemoveAt(s.waitingRcv, i));
      TagsRemoveAt(s.waitingRcv, i);
      Removed(Census(r), Census(s), Tags(RemoveAt(s.waitingRcv, i)), Tag(s.waitingRcv[i]));
  }

  /** The outcomes of kill_K by where the id was found. */
  lemma KillCases(s: Sys, id: nat)
    ensures Locate(s, id) == Nowhere ==> Kill(s, id) == s
    ensures Listed(Locate(s, id)) ==> Kill(s, id) == Unlisted(s, Locate(s, id))
    ensures Locate(s, id) == AtRunning ==> Kill(s, id) == Exit(s)
    ensures Locate(s, id) == AtInit ==> Kill(s, id) == DeleteProc(s, InitVictim)
  {
  }

  /** kill_K keeps the invariant. */
  lemma KillKeepsInv(s: Sys, id: nat)
    requires Inv(s)
    ensures Inv(Kill(s, id))
  {
    KillCases(s, id);
    var place := Locate(s, id);
    if Listed(place) {
      UnlistedOk(s, place);
    } else if place == AtRunning {
      ExitFacts(s);
    }
  }

  /**
   * kill_K: an unknown id changes nothing; a listed process is taken out of
   * that one list and nothing else changes; the running process is removed
   * and a dispatch follows; init is killed, ending the run, exactly when no
   * other process exists, and otherwise nothing changes.
   */
  lemma KillFacts(s: Sys, id: nat)
    requires Inv(s)
    ensures Locate(s, id) == Nowhere ==> Kill(s, id) == s
    ensures Listed(Locate(s, id)) ==>
      Census(Kill(s, id)) + multiset{Tag(RecordAt(s, Locate(s, id)))} == Census(s) &&
      Kill(s, id).running == s.running && Kill(s, id).init == s.init && Kill(s, id).run == s.run
    ensures Locate(s, id) == AtRunning && s.running.User? ==>
      Census(Kill(s, id)) + multiset{Tag(s.running.pcb)} == Census(s)
    ensures Locate(s, id) == AtInit || (Locate(s, id) == AtRunning && s.running.Init?) ==>
      Kill(s, id) == (if Census(s) == multiset{} then s.(run := false) else s)
  {
    KillCases(s, id);
    var place := Locate(s, id);
    if Listed(place) {
      UnlistedCensus(s, place);
    } else if place == AtRunning {
      ExitFacts(s);
    } else if place == AtInit {
      NoOtherProcIffAlone(s);
    }
  }

  // ---------------------------------------------------------------------
  // Degradation (quantum_Q)
  // ---------------------------------------------------------------------

  /** The record quantum_Q re-enqueues: READY, one level lower. */
  function Expired(s: Sys): Pcb
  {
    Current(s).(state := Ready, priority := Degrade(Current(s).priority))
  }

  lemma QuantumCases(s: Sys)
    requires Inv(s)
    ensures s.running.Init? ==> Quantum(s) == Dispatch(s.(init := Expired(s)))
    ensures s.running.User? ==> Quantum(s) == Dispatch(Admit(s, Expired(s)))
  {
  }

  /** quantum_Q keeps the invariant. */
  lemma QuantumKeepsInv(s: Sys)
    requires Inv(s)
    ensures Inv(Quantum(s))
  {
    QuantumCases(s);
    if s.running.Init? {
      DispatchFacts(s.(init := Expired(s)));
    } else {
      AdmitKeepsInv(s, Expired(s));
      AdmitEffect(s, Expired(s));
      DispatchFacts(Admit(s, Expired(s)));
    }
  }

  /**
   * quantum_Q: the running process's priority goes down one level, never
   * past the lowest; an ordinary process is re-admitted with that priority
   * (and is lost if no level takes it), init is never queued; the census
   * changes only in that one priority.
   */
  lemma QuantumFacts(s: Sys)
    requires Inv(s)
    ensures var me, me' := Current(s), Expired(s);
      me.priority <= me'.priority <= LOWEST &&
      (me.priority < LOWEST ==> me'.priority == me.priority + 1) &&
      (s.running.Init? ==>
        Census(Quantum(s)) == Census(s) && Quantum(s).init.priority == me'.priority) &&
      (s.running.User? && Admits(s, me') ==>
        Census(Quantum(s)) + multiset{Tag(me)} == Census(s) + multiset{Tag(me')}) &&
      (s.running.User? && !Admits(s, me') ==>
        Census(Quantum(s)) + multiset{Tag(me)} == Census(s))
  {
    QuantumCases(s);
    var me' := Expired(s);
    if s.running.Init? {
      DispatchCounts(s.(init := me'));
      DispatchFrame(s.(init := me'));
    } else {
      AdmitCensus(s, me');
      AdmitEffect(s, me');
      DispatchCounts(Admit(s, me'));
    }
  }

  // ---------------------------------------------------------------------
  // Messaging: send_S, receive_R, reply_Y
  // ---------------------------------------------------------------------

  /** A mailbox write where the target sits keeps the invariant and the census. */
  lemma DeliverInPlace(s: Sys, place: Place, from: nat, text: string)
    requires Inv(s) && PlaceOk(s, place) && place != Nowhere && !place.InRcv? && ValidMsg(text)
    ensures Inv(Deliver(s, place, from, text))
    ensures Census(Deliver(s, place, from, text)) == Census(s)
  {
    match place
    case AtRunning =>
    case AtInit =>
    case InLevel(l, i) => MailLevel(s, l, i, from, text);
    case InSem(k, i) => MailSem(s, k, i, from, text);
    case InReply(i) => MailReply(s, i, from, text);
  }

  /** A mailbox write where the target sits changes that record only. */
  lemma DeliverInPlaceRecord(s: Sys, place: Place, from: nat, text: string)
    requires Inv(s) && PlaceOk(s, place) && place != Nowhere && !place.InRcv?
    ensures Deliver(s, place, from, text).running.Init? == s.running.Init?
    ensures PlaceOk(Deliver(s, place, from, text), place)
    ensures RecordAt(Deliver(s, place, from, text), place) == Mail(RecordAt(s, place), from, text)
  {
  }

  lemma MailLevel(s: Sys, l: nat, i: nat, from: nat, text: string)
    requires Inv(s) && l < LEVELS && i < |s.levels[l]| && ValidMsg(text)
    ensures var q := s.levels[l];
      var r := s.(levels := s.levels[l := q[i := Mail(q[i], from, text)]]);
      Inv(r) && Census(r) == Census(s)
  {
    var q := s.levels[l];
    MembersMail(q, i, from, text);
    LevelsPut(s.levels, s.capacity, l, q[i := Mail(q[i], from, text)]);
    MailLevelCensus(s, l, i, from, text);
  }

  lemma MembersMail(q: seq<Pcb>, i: nat, from: nat, text: string)
    requires LevelMembersOk(q) && i < |q| && ValidMsg(text)
    ensures LevelMembersOk(q[i := Mail(q[i], from, text)])
  {
    assert LevelMemberOk(q[i]);
  }

  lemma MailLevelCensus(s: Sys, l: nat, i: nat, from: nat, text: string)
    requires l < |s.levels| && i < |s.levels[l]|
    ensures var q := s.levels[l];
      Census(s.(levels := s.levels[l := q[i := Mail(q[i], from, text)]])) == Census(s)
  {
    var q := s.levels[l];
    var q' := q[i := Mail(q[i], from, text)];
    var r := s.(levels := s.levels[l := q']);
    TagsUpdate(q, i, Mail(q[i], from, text));
    CensusLevel(s, l, q');
    Cancel(Census(r), Census(s), Tags(q));
  }

  lemma MailSem(s: Sys, k: nat, i: nat, from: nat, text: string)
    requires Inv(s) && k < SEMS && i < |s.sems[k].waiters| && ValidMsg(text)
    ensures var m := s.sems[k];
      var r := s.(sems := s.sems[k := m.(waiters := m.waiters[i := Mail(m.waiters[i], from, text)])]);
      Inv(r) && Census(r) == Census(s)
  {
    var m := s.sems[k];
    var m' := m.(waiters := m.waiters[i := Mail(m.waiters[i], from, text)]);
    assert SemOk(m);
    assert WaiterOk(m.waiters[i]);
    assert SemOk(m');
    SemsPut(s.sems, k, m');
    MailSemCensus(s, k, i, from, text);
  }

  lemma MailSemCensus(s: Sys, k: nat, i: nat, from: nat, text: string)
    requires k < |s.sems| && i < |s.sems[k].waiters|
    ensures var m := s.sems[k];
      Census(s.(sems := s.sems[k := m.(waiters := m.waiters[i := Mail(m.waiters[i], from, text)])])) == Census(s)
  {
    var m := s.sems[k];
    var m' := m.(waiters := m.waiters[i := Mail(m.waiters[i], from, text)]);
    var r := s.(sems := s.sems[k := m']);
    TagsUpdate(m.waiters, i, Mail(m.waiters[i], from, text));
    CensusSem(s, k, m');
    Cancel(Census(r), Census(s), Tags(m.waiters));
  }

  lemma MailReply(s: Sys, i: nat, from: nat, text: string)
    requires Inv(s) && i < |s.waitingReply| && ValidMsg(text)
    ensures var r := s.(waitingReply := s.waitingReply[i := Mail(s.waitingReply[i], from, text)]);
      Inv(r) && Census(r) == Census(s)
  {
    assert WaiterOk(s.waitingReply[i]);
    MailReplyCensus(s, i, from, text);
  }

  lemma MailReplyCensus(s: Sys, i: nat, from: nat, text: string)
    requires i < |s.waitingReply|
    ensures Census(s.(waitingReply := s.waitingReply[i := Mail(s.waitingReply[i], from, text)])) == Census(s)
  {
    var q := s.waitingReply[i := Mail(s.waitingReply[i], from, text)];
    TagsUpdate(s.waitingReply, i, Mail(s.waitingReply[i], from, text));
    CensusReply(s, q);
    Cancel(Census(s.(waitingReply := q)), Census(s), Tags(s.waitingReply));
  }

  /** send_S to a receive-waiter: it leaves that list and is enqueued with the message. */
  lemma DeliverToReceiver(s: Sys, i: nat, from: nat, text: string)
    requires Inv(s) && i < |s.waitingRcv| && ValidMsg(text)
    ensures Inv(Deliver(s, InRcv(i), from, text))
    ensures Deliver(s, InRcv(i), from, text).running == s.running
    ensures Admits(s, s.waitingRcv[i]) ==> Census(Deliver(s, InRcv(i), from, text)) == Census(s)
    ensures !Admits(s, s.waitingRcv[i]) ==>
      Census(Deliver(s, InRcv(i), from, text)) + multiset{Tag(s.waitingRcv[i])} == Census(s)
    ensures Admits(s, s.waitingRcv[i]) ==>
      var p := Mail(s.waitingRcv[i], from, text);
      var l := AdmitLevel(s.levels, s.capacity, p.priority);
      Deliver(s, InRcv(i), from, text).levels[l] == [p] + s.levels[l] &&
      Deliver(s, InRcv(i), from, text).waitingRcv == RemoveAt(s.waitingRcv, i)
  {
    var p := Mail(s.waitingRcv[i], from, text);
    var s1 := Unlisted(s, InRcv(i));
    UnlistedOk(s, InRcv(i));
    UnlistedCensus(s, InRcv(i));
    assert WaiterOk(s.waitingRcv[i]);
    AdmitKeepsInv(s1, p);
    AdmitCensus(s1, p);
    AdmitEffect(s1, p);
  }

  /** A receive-waiter that send_S cannot put on any level. */
  predicate LostOnDelivery(s: Sys, place: Place)
    requires Inv(s) && PlaceOk(s, place)
  {
    place.InRcv? && !Admits(s, s.waitingRcv[place.i])
  }

  /**
   * The write send_S makes: the target's mailbox holds the text and its
   * peer is the sender, wherever it was found (a receive-waiter is moved to
   * the front of a ready level), and no process is gained or lost unless a
   * receive-waiter finds every level full.
   */
  lemma DeliverFacts(s: Sys, place: Place, from: nat, text: string)
    requires Inv(s) && PlaceOk(s, place) && place != Nowhere && ValidMsg(text)
    ensures Inv(Deliver(s, place, from, text))
    ensures Deliver(s, place, from, text).running.Init? == s.running.Init?
    ensures !place.InRcv? ==>
      PlaceOk(Deliver(s, place, from, text), place) &&
      RecordAt(Deliver(s, place, from, text), place) == Mail(RecordAt(s, place), from, text)
    ensures place.InRcv? && Admits(s, s.waitingRcv[place.i]) ==>
      var p := Mail(s.waitingRcv[place.i], from, text);
      var l := AdmitLevel(s.levels, s.capacity, p.priority);
      Deliver(s, place, from, text).levels[l] == [p] + s.levels[l] &&
      Deliver(s, place, from, text).waitingRcv == RemoveAt(s.waitingRcv, place.i)
    ensures !LostOnDelivery(s, place) ==> Census(Deliver(s, place, from, text)) == Census(s)
    ensures LostOnDelivery(s, place) ==>
      Census(Deliver(s, place, from, text)) + multiset{Tag(s.waitingRcv[place.i])} == Census(s)
  {
    if place.InRcv? {
      DeliverToReceiver(s, place.i, from, text);
    } else {
      DeliverInPlace(s, place, from, text);
      DeliverInPlaceRecord(s, place, from, text);
    }
  }

  /**
   * Delivery touches only the list, slot or record the target was found
   * in: every other part of the state is as before.
   */
  lemma DeliverFrame(s: Sys, place: Place, from: nat, text: string)
    requires Inv(s) && PlaceOk(s, place)
    ensures var r := Deliver(s, place, from, text);
      (place.AtRunning? || place.AtInit?) ==>
        r.levels == s.levels && r.sems == s.sems &&
        r.waitingReply == s.waitingReply && r.waitingRcv == s.waitingRcv
    ensures var r := Deliver(s, place, from, text);
      place.InLevel? ==>
        r == s.(levels := r.levels) &&
        r.levels[place.l] == s.levels[place.l][place.i := Mail(s.levels[place.l][place.i], from, text)] &&
        forall l :: 0 <= l < |s.levels| && l != place.l ==> r.levels[l] == s.levels[l]
    ensures var r := Deliver(s, place, from, text);
      place.InSem? ==>
        r == s.(sems := r.sems) && r.sems[place.k].value == s.sems[place.k].value &&
        |r.sems[place.k].waiters| == |s.sems[place.k].waiters| &&
        (forall j :: 0 <= j < |s.sems[place.k].waiters| && j != place.i ==>
          r.sems[place.k].waiters[j] == s.sems[place.k].waiters[j]) &&
        forall k :: 0 <= k < |s.sems| && k != place.k ==> r.sems[k] == s.sems[k]
    ensures var r := Deliver(s, place, from, text);
      place.InReply? ==>
        r == s.(waitingReply := r.waitingReply) && |r.waitingReply| == |s.waitingReply| &&
        forall j :: 0 <= j < |s.waitingReply| && j != place.i ==> r.waitingReply[j] == s.waitingReply[j]
    ensures var r := Deliver(s, place, from, text);
      place.InRcv? ==>
        r.sems == s.sems && r.waitingReply == s.waitingReply &&
        r.running == s.running && r.init == s.init && r.run == s.run
    ensures place == Nowhere ==> Deliver(s, place, from, text) == s
  {
    if place.InRcv? {
      AdmitEffect(s.(waitingRcv := RemoveAt(s.waitingRcv, place.i)), Mail(s.waitingRcv[place.i], from, text));
    }
  }

  /** What an ordinary sender leaves before the dispatch: itself BLOCKED at the front of the reply-wait list. */
  function AwaitingReply(s1: Sys): Sys
    requires s1.running.User?
  {
    s1.(waitingReply := [s1.running.pcb.(state := Blocked)] + s1.waitingReply)
  }

  lemma AwaitingReplyFacts(s1: Sys)
    requires Inv(s1) && s1.running.User?
    ensures Inv(Dispatch(AwaitingReply(s1)))
    ensures Census(Dispatch(AwaitingReply(s1))) == Census(s1)
  {
    var me := s1.running.pcb;
    QueuedBlockReply(s1, me.(state := Blocked));
    WaitersPrepend(me.(state := Blocked), s1.waitingReply);
    DispatchFacts(AwaitingReply(s1));
  }

  lemma SendCases(s: Sys, id: nat, text: string)
    requires Inv(s)
    ensures Locate(s, id) == Nowhere ==> Send(s, id, text) == s
    ensures Locate(s, id) != Nowhere ==>
      var s1 := Deliver(s, Locate(s, id), Current(s).pid, text);
      (s1.running.Init? ==> Send(s, id, text) == s1) &&
      (s1.running.User? ==> Send(s, id, text) == Dispatch(AwaitingReply(s1)))
  {
  }

  /** send_S keeps the invariant, and every process is accounted for unless a receive-waiter finds every level full. */
  lemma SendKeepsInv(s: Sys, id: nat, text: string)
    requires Inv(s) && ValidMsg(text)
    ensures Inv(Send(s, id, text))
    ensures Locate(s, id) != Nowhere && !LostOnDelivery(s, Locate(s, id)) ==>
      Census(Send(s, id, text)) == Census(s)
  {
    SendCases(s, id, text);
    var place := Locate(s, id);
    if place != Nowhere {
      var s1 := Deliver(s, place, Current(s).pid, text);
      DeliverFacts(s, place, Current(s).pid, text);
      if s1.running.User? {
        AwaitingReplyFacts(s1);
      }
    }
  }

  /**
   * send_S: an id found nowhere changes nothing; otherwise an ordinary
   * sender ends up BLOCKED at the front of the reply-wait list while init
   * keeps running.
   */
  lemma SendFacts(s: Sys, id: nat, text: string)
    requires Inv(s) && ValidMsg(text)
    ensures Locate(s, id) == Nowhere ==> Send(s, id, text) == s
    ensures Locate(s, id) != Nowhere && s.running.Init? ==>
      Send(s, id, text) == Deliver(s, Locate(s, id), s.init.pid, text) && Send(s, id, text).running == Init
    ensures Locate(s, id) != Nowhere && s.running.User? ==>
      var r := Send(s, id, text).waitingReply;
      |r| == |s.waitingReply| + 1 && r[0].pid == s.running.pcb.pid && r[0].state == Blocked &&
      r[0].priority == s.running.pcb.priority &&
      (id == s.running.pcb.pid ==> r[0].msg == text && r[0].remote == id)
  {
    SendCases(s, id, text);
    var place := Locate(s, id);
    if place != Nowhere {
      var s1 := Deliver(s, place, Current(s).pid, text);
      DeliverFacts(s, place, Current(s).pid, text);
      if s1.running.User? {
        DispatchFrame(AwaitingReply(s1));
        SendSenderRecord(s, place, text);
      }
    }
  }

  /** The sender's record after the mailbox write: only a message to itself changes it. */
  lemma SendSenderRecord(s: Sys, place: Place, text: string)
    requires Inv(s) && PlaceOk(s, place) && place != Nowhere && ValidMsg(text) && s.running.User?
    ensures var s1 := Deliver(s, place, s.running.pcb.pid, text);
      s1.running.User? && s1.running.pcb.pid == s.running.pcb.pid &&
      s1.running.pcb.priority == s.running.pcb.priority &&
      |s1.waitingReply| == |s.waitingReply| &&
      (place == AtRunning ==> s1.running.pcb.msg == text && s1.running.pcb.remote == s.running.pcb.pid)
  {
    if place.InRcv? {
      DeliverToReceiver(s, place.i, s.running.pcb.pid, text);
      AdmitEffect(Unlisted(s, place), Mail(s.waitingRcv[place.i], s.running.pcb.pid, text));
    }
  }

  /** What an ordinary caller of receive_R with an empty mailbox leaves before the dispatch. */
  function AwaitingMessage(s: Sys): Sys
    requires s.running.User?
  {
    s.(waitingRcv := [s.running.pcb.(state := Blocked)] + s.waitingRcv)
  }

  lemma ReceiveCases(s: Sys)
    ensures Inbox(s).Some? ==> Receive(s) == SetCurrent(s, Current(s).(msg := [], remote := UNUSED))
    ensures Inbox(s).None? && s.running.Init? ==> Receive(s) == s
    ensures Inbox(s).None? && s.running.User? ==> Receive(s) == Dispatch(AwaitingMessage(s))
  {
  }

  /** receive_R keeps the invariant and neither creates nor loses a process. */
  lemma ReceiveKeepsInv(s: Sys)
    requires Inv(s)
    ensures Inv(Receive(s))
    ensures Census(Receive(s)) == Census(s)
  {
    ReceiveCases(s);
    if Inbox(s).None? && s.running.User? {
      var me := s.running.pcb.(state := Blocked);
      QueuedBlockRcv(s, me);
      WaitersPrepend(me, s.waitingRcv);
      DispatchFacts(AwaitingMessage(s));
    }
  }

  /**
   * receive_R: a non-empty mailbox is emptied (peer UNUSED) without
   * blocking; with an empty mailbox an ordinary caller is BLOCKED at the
   * front of the receive-wait list and a dispatch follows, while init
   * changes nothing.
   */
  lemma ReceiveFacts(s: Sys)
    ensures Inbox(s).Some? ==>
      var r := Receive(s);
      r.running.Init? == s.running.Init? && Current(r).pid == Current(s).pid &&
      Current(r).msg == [] && Current(r).remote == UNUSED &&
      r.levels == s.levels && r.sems == s.sems &&
      r.waitingReply == s.waitingReply && r.waitingRcv == s.waitingRcv
    ensures Inbox(s).None? && s.running.Init? ==> Receive(s) == s
    ensures Inbox(s).None? && s.running.User? ==>
      var q := Receive(s).waitingRcv;
      |q| == |s.waitingRcv| + 1 && q[0] == s.running.pcb.(state := Blocked) && q[1..] == s.waitingRcv
  {
    ReceiveCases(s);
    if Inbox(s).None? && s.running.User? {
      DispatchFrame(AwaitingMessage(s));
      assert ([s.running.pcb.(state := Blocked)] + s.waitingRcv)[1..] == s.waitingRcv;
    }
  }

  lemma ReplyCases(s: Sys, id: nat, text: string)
    requires Inv(s)
    ensures !HasPid(s.waitingReply, id) ==> Reply(s, id, text) == s
    ensures HasPid(s.waitingReply, id) ==>
      var i := IndexOfPid(s.waitingReply, id).value;
      Reply(s, id, text) == Admit(Unlisted(s, InReply(i)), Mail(s.waitingReply[i], Current(s).pid, text))
  {
  }

  /**
   * reply_Y: an id not on the reply-wait list changes nothing; otherwise that
   * process is taken off the list, given the text and the replier's id, and
   * enqueued (it is lost only if every level is full).
   */
  lemma ReplyFacts(s: Sys, id: nat, text: string)
    requires Inv(s) && ValidMsg(text)
    ensures Inv(Reply(s, id, text))
    ensures !HasPid(s.waitingReply, id) ==> Reply(s, id, text) == s
    ensures HasPid(s.waitingReply, id) ==>
      var i := IndexOfPid(s.waitingReply, id).value;
      var p := Mail(s.waitingReply[i], Current(s).pid, text);
      var r := Reply(s, id, text);
      p.pid == id && r.waitingReply == RemoveAt(s.waitingReply, i) &&
      r.running == s.running && r.sems == s.sems && r.waitingRcv == s.waitingRcv &&
      (Admits(s, p) ==>
        var l := AdmitLevel(s.levels, s.capacity, p.priority);
        r.levels[l] == [p] + s.levels[l] && Census(r) == Census(s) &&
        forall j :: 0 <= j < LEVELS && j != l ==> r.levels[j] == s.levels[j]) &&
      (!Admits(s, p) ==> r.levels == s.levels && Census(r) + multiset{Tag(p)} == Census(s))
  {
    ReplyCases(s, id, text);
    match IndexOfPid(s.waitingReply, id)
    case None =>
    case Some(i) =>
      var p := Mail(s.waitingReply[i], Current(s).pid, text);
      var s1 := Unlisted(s, InReply(i));
      UnlistedOk(s, InReply(i));
      UnlistedCensus(s, InReply(i));
      assert WaiterOk(s.waitingReply[i]);
      AdmitKeepsInv(s1, p);
      AdmitCensus(s1, p);
      AdmitEffect(s1, p);
  }

  // ---------------------------------------------------------------------
  // Semaphores: sem_N, sem_P, sem_V
  // ---------------------------------------------------------------------

  lemma SemInitCases(s: Sys, k: nat, v: int)
    requires Inv(s)
    ensures k < SEMS && s.sems[k].value == UNUSED ==>
      SemInit(s, k, v) == s.(sems := s.sems[k := Sem(v, [])])
    ensures !(k < SEMS && s.sems[k].value == UNUSED) ==> SemInit(s, k, v) == s
  {
  }

  lemma FreshSemCensus(s: Sys, k: nat, v: int)
    requires k < |s.sems| && s.sems[k].waiters == []
    ensures Census(s.(sems := s.sems[k := Sem(v, [])])) == Census(s)
  {
    var r := s.(sems := s.sems[k := Sem(v, [])]);
    CensusSem(s, k, Sem(v, []));
    assert Tags(s.sems[k].waiters) == multiset{} && Tags(Sem(v, []).waiters) == multiset{};
    assert Census(r) + multiset{} == Census(s) + multiset{};
    Cancel(Census(r), Census(s), multiset{});
  }

  /**
   * sem_N succeeds only for a slot id at most 4 whose counter still reads
   * UNUSED, giving it the value and an empty list; otherwise nothing
   * changes.  The invariant holds after it, and no process is lost: such a
   * slot had no waiters.
   */
  lemma SemInitFacts(s: Sys, k: nat, v: int)
    requires Inv(s)
    ensures Inv(SemInit(s, k, v))
    ensures Census(SemInit(s, k, v)) == Census(s)
    ensures k < SEMS && s.sems[k].value == UNUSED ==>
      SemInit(s, k, v).sems[k] == Sem(v, []) &&
      forall j :: 0 <= j < SEMS && j != k ==> SemInit(s, k, v).sems[j] == s.sems[j]
    ensures !(k < SEMS && s.sems[k].value == UNUSED) ==> SemInit(s, k, v) == s
  {
    SemInitCases(s, k, v);
    if k < SEMS && s.sems[k].value == UNUSED {
      assert SemOk(s.sems[k]);
      FreshSemCensus(s, k, v);
      SemsPut(s.sems, k, Sem(v, []));
    }
  }

  /** The state sem_P leaves before dispatching when it blocks the caller. */
  function BlockedOnSem(s: Sys, k: nat): Sys
    requires k < |s.sems| && s.running.User?
  {
    var m := s.sems[k];
    s.(sems := s.sems[k := Sem(m.value - 1, [s.running.pcb.(state := Blocked)] + m.waiters)])
  }

  /** The state sem_P leaves when the caller passes. */
  function PassedSem(s: Sys, k: nat): Sys
    requires k < |s.sems|
  {
    s.(sems := s.sems[k := s.sems[k].(value := s.sems[k].value - 1)])
  }

  /** The three outcomes of sem_P. */
  lemma SemPCases(s: Sys, k: nat)
    requires Inv(s) && k < SEMS
    ensures s.sems[k].value == UNUSED || s.running.Init? ==> SemP(s, k) == s
    ensures s.sems[k].value != UNUSED && s.running.User? && s.sems[k].value <= 0 ==>
      SemP(s, k) == Dispatch(BlockedOnSem(s, k))
    ensures s.sems[k].value != UNUSED && s.running.User? && s.sems[k].value > 0 ==>
      SemP(s, k) == PassedSem(s, k)
  {
  }

  lemma BlockedOnSemOk(s: Sys, k: nat)
    requires Inv(s) && k < SEMS && s.running.User? && s.sems[k].value <= 0
    ensures QueuesOk(BlockedOnSem(s, k)) && InitOk(BlockedOnSem(s, k))
    ensures BlockedOnSem(s, k).init.state == Ready
  {
    var m := s.sems[k];
    var me := s.running.pcb.(state := Blocked);
    var m' := Sem(m.value - 1, [me] + m.waiters);
    assert SemOk(m);
    WaitersPrepend(me, m.waiters);
    SemsPut(s.sems, k, m');
  }

  lemma BlockedOnSemCensus(s: Sys, k: nat)
    requires k < |s.sems| && s.running.User?
    ensures Census(Dispatch(BlockedOnSem(s, k))) == Census(s)
  {
    var m := s.sems[k];
    var me := s.running.pcb.(state := Blocked);
    var m' := Sem(m.value - 1, [me] + m.waiters);
    var s1 := BlockedOnSem(s, k);
    assert s1 == s.(sems := s.sems[k := m']);
    TagsPrepend(me, m.waiters);
    QueuedSem(s, k, m');
    Added(Queued(s1), Queued(s), Tags(m.waiters), Tag(me));
    DispatchCounts(s1);
  }

  /** Changing a slot's counter alone keeps the invariant when the waiters still fit, and the census always. */
  lemma SemCounter(s: Sys, k: nat, v: int)
    requires Inv(s) && k < SEMS && (s.sems[k].waiters == [] || |s.sems[k].waiters| <= -v)
    ensures var r := s.(sems := s.sems[k := s.sems[k].(value := v)]);
      Inv(r) && Census(r) == Census(s)
  {
    var m := s.sems[k];
    SemsPut(s.sems, k, m.(value := v));
    SemCounterCensus(s, k, v);
  }

  lemma SemCounterCensus(s: Sys, k: nat, v: int)
    requires k < |s.sems|
    ensures Census(s.(sems := s.sems[k := s.sems[k].(value := v)])) == Census(s)
  {
    var m := s.sems[k];
    CensusSem(s, k, m.(value := v));
    Cancel(Census(s.(sems := s.sems[k := m.(value := v)])), Census(s), Tags(m.waiters));
  }

  /** sem_P keeps the invariant. */
  lemma SemPKeepsInv(s: Sys, k: nat)
    requires Inv(s) && k < SEMS
    ensures Inv(SemP(s, k))
  {
    SemPCases(s, k);
    var m := s.sems[k];
    if m.value != UNUSED && s.running.User? {
      if m.value <= 0 {
        BlockedOnSemOk(s, k);
        DispatchFacts(BlockedOnSem(s, k));
      } else {
        assert SemOk(m);
        SemCounter(s, k, m.value - 1);
      }
    }
  }

  /** sem_P neither creates nor loses a process: a blocked caller moves from the CPU to the slot's list. */
  lemma SemPCensus(s: Sys, k: nat)
    requires Inv(s) && k < SEMS
    ensures Census(SemP(s, k)) == Census(s)
  {
    SemPCases(s, k);
    if s.running.User? {
      BlockedOnSemCensus(s, k);
    }
    SemCounterCensus(s, k, s.sems[k].value - 1);
  }

  /**
   * sem_P: an uninitialised slot, or init as caller, changes nothing.
   * Otherwise the counter always goes down by one, and the caller is
   * BLOCKED at the front of the slot's list (followed by a dispatch)
   * exactly when the counter was at most 0 beforehand.
   */
  lemma SemPEffect(s: Sys, k: nat)
    requires Inv(s) && k < SEMS
    ensures s.sems[k].value == UNUSED || s.running.Init? ==> SemP(s, k) == s
    ensures s.sems[k].value != UNUSED && s.running.User? ==>
      var m, m' := s.sems[k], SemP(s, k).sems[k];
      m'.value == m.value - 1 &&
      (m.value <= 0 <==> |m'.waiters| == |m.waiters| + 1) &&
      (m.value <= 0 ==> m'.waiters == [s.running.pcb.(state := Blocked)] + m.waiters) &&
      (m.value > 0 ==> m'.waiters == m.waiters && SemP(s, k).running == s.running)
    ensures forall j :: 0 <= j < SEMS && j != k ==> SemP(s, k).sems[j] == s.sems[j]
  {
    SemPCases(s, k);
    if s.running.User? && s.sems[k].value <= 0 {
      DispatchFrame(BlockedOnSem(s, k));
    }
  }

  /** The state sem_V leaves before enqueueing the released process. */
  function Released(s: Sys, k: nat): Sys
    requires k < |s.sems| && s.sems[k].waiters != []
  {
    var m := s.sems[k];
    s.(sems := s.sems[k := Sem(m.value + 1, Trim(m.waiters))])
  }

  /** The process sem_V releases: the longest waiter, made READY. */
  function Woken(s: Sys, k: nat): Pcb
    requires k < |s.sems| && s.sems[k].waiters != []
  {
    Last(s.sems[k].waiters).(state := Ready)
  }

  lemma SemVCases(s: Sys, k: nat)
    requires Inv(s) && k < SEMS
    ensures s.sems[k].value == UNUSED ==> SemV(s, k) == s
    ensures s.sems[k].value != UNUSED && s.sems[k].waiters == [] ==>
      SemV(s, k) == s.(sems := s.sems[k := s.sems[k].(value := s.sems[k].value + 1)])
    ensures s.sems[k].value != UNUSED && s.sems[k].waiters != [] ==>
      SemV(s, k) == Admit(Released(s, k), Woken(s, k))
  {
  }

  lemma ReleasedOk(s: Sys, k: nat)
    requires Inv(s) && k < SEMS && s.sems[k].waiters != []
    ensures Inv(Released(s, k)) && LevelMemberOk(Woken(s, k))
  {
    var m := s.sems[k];
    assert SemOk(m);
    WaitersTrim(m.waiters);
    SemsPut(s.sems, k, Sem(m.value + 1, Trim(m.waiters)));
  }

  lemma ReleasedCensus(s: Sys, k: nat)
    requires k < |s.sems| && s.sems[k].waiters != []
    ensures Census(Released(s, k)) + multiset{Tag(Woken(s, k))} == Census(s)
  {
    var m := s.sems[k];
    var m' := Sem(m.value + 1, Trim(m.waiters));
    var s1 := Released(s, k);
    assert s1 == s.(sems := s.sems[k := m']);
    CensusSem(s, k, m');
    TagsTrim(m.waiters);
    Removed(Census(s1), Census(s), Tags(Trim(m.waiters)), Tag(Last(m.waiters)));
  }

  /** sem_V keeps the invariant. */
  lemma SemVKeepsInv(s: Sys, k: nat)
    requires Inv(s) && k < SEMS
    ensures Inv(SemV(s, k))
  {
    SemVCases(s, k);
    var m := s.sems[k];
    if m.value != UNUSED {
      if m.waiters == [] {
        SemCounter(s, k, m.value + 1);
      } else {
        ReleasedOk(s, k);
        AdmitKeepsInv(Released(s, k), Woken(s, k));
      }
    }
  }

  /** sem_V neither creates nor loses a process, unless the released one finds every level full. */
  lemma SemVCensus(s: Sys, k: nat)
    requires Inv(s) && k < SEMS
    ensures var m := s.sems[k];
      m.value != UNUSED && m.waiters != [] && !Admits(s, Woken(s, k)) ==>
        Census(SemV(s, k)) + multiset{Tag(Woken(s, k))} == Census(s)
    ensures var m := s.sems[k];
      !(m.value != UNUSED && m.waiters != [] && !Admits(s, Woken(s, k))) ==>
        Census(SemV(s, k)) == Census(s)
  {
    SemVCases(s, k);
    var m := s.sems[k];
    if m.value != UNUSED {
      if m.waiters == [] {
        SemCounterCensus(s, k, m.value + 1);
      } else {
        ReleasedCensus(s, k);
        AdmitCensus(Released(s, k), Woken(s, k));
      }
    }
  }

  /**
   * sem_V on an initialised slot: the counter always goes up by one; if the
   * list is not empty its longest-waiting process is taken off, made READY
   * and enqueued at the front of its level; no other list, nor the CPU,
   * changes.
   */
  lemma SemVEffect(s: Sys, k: nat)
    requires Inv(s) && k < SEMS
    ensures s.sems[k].value == UNUSED ==> SemV(s, k) == s
    ensures var m, r := s.sems[k], SemV(s, k);
      m.value != UNUSED ==>
        r.sems == s.sems[k := Sem(m.value + 1, if m.waiters == [] then [] else Trim(m.waiters))] &&
        r.running == s.running && r.init == s.init &&
        r.waitingReply == s.waitingReply && r.waitingRcv == s.waitingRcv
    ensures var m, r := s.sems[k], SemV(s, k);
      m.value != UNUSED && m.waiters == [] ==> r.levels == s.levels
    ensures var m, r := s.sems[k], SemV(s, k);
      m.value != UNUSED && m.waiters != [] ==>
        var p := Last(m.waiters).(state := Ready);
        (Admits(s, p) ==>
          var l := AdmitLevel(s.levels, s.capacity, p.priority);
          r.levels[l] == [p] + s.levels[l] &&
          forall j :: 0 <= j < LEVELS && j != l ==> r.levels[j] == s.levels[j]) &&
        (!Admits(s, p) ==> r.levels == s.levels)
  {
    SemVCases(s, k);
    var m := s.sems[k];
    if m.value != UNUSED && m.waiters != [] {
      AdmitEffect(Released(s, k), Woken(s, k));
    }
  }

  /**
   * The counter and the "not initialised" mark share the value 999: a V that
   * brings a counter from 998 to 999 leaves a slot that P and V then treat
   * as uninitialised and that sem_N may initialise again.
   */
  lemma SemVReachesSentinel(s: Sys, k: nat)
    requires Inv(s) && k < SEMS && s.sems[k].value == UNUSED - 1
    ensures SemV(s, k).sems[k] == Sem(UNUSED, [])
    ensures Inv(SemV(s, k))
    ensures SemP(SemV(s, k), k) == SemV(s, k) && SemV(SemV(s, k), k) == SemV(s, k)
    ensures SemInit(SemV(s, k), k, 1).sems[k] == Sem(1, [])
  {
    SemVCases(s, k);
    assert SemOk(s.sems[k]);
    SemVKeepsInv(s, k);
    var r := SemV(s, k);
    SemPCases(r, k);
    SemVCases(r, k);
    SemInitCases(r, k, 1);
  }

  // ---------------------------------------------------------------------
  // procinfo_I
  // ---------------------------------------------------------------------

  /**
   * The order kill_K, send_S and procinfo_I search in: the running slot,
   * init, levels 0..2, the initialised semaphore slots 0..4, the
   * reply-wait list, the receive-wait list; within a list the first match
   * from the front.  Each place is returned exactly when every earlier
   * search came up empty, which fixes the place even when ids repeat.
   */
  lemma LocateOrder(s: Sys, id: nat)
    ensures var r := Locate(s, id);
      (r == AtRunning <==> Current(s).pid == id) &&
      (r == AtInit <==> Current(s).pid != id && s.init.pid == id)
    ensures var r := Locate(s, id);
      r.InLevel? ==>
        Current(s).pid != id && s.init.pid != id &&
        r.l == LevelSearch(s.levels, id, 0) && IndexOfPid(s.levels[r.l], id) == Some(r.i)
    ensures var r := Locate(s, id);
      r.InSem? ==>
        Current(s).pid != id && s.init.pid != id && LevelSearch(s.levels, id, 0) == -1 &&
        r.k == SemSearch(s.sems, id, 0) && IndexOfPid(s.sems[r.k].waiters, id) == Some(r.i)
    ensures var r := Locate(s, id);
      r.InReply? ==>
        Current(s).pid != id && s.init.pid != id && LevelSearch(s.levels, id, 0) == -1 &&
        SemSearch(s.sems, id, 0) == -1 && IndexOfPid(s.waitingReply, id) == Some(r.i)
    ensures var r := Locate(s, id);
      r.InRcv? ==>
        Current(s).pid != id && s.init.pid != id && LevelSearch(s.levels, id, 0) == -1 &&
        SemSearch(s.sems, id, 0) == -1 && !HasPid(s.waitingReply, id) &&
        IndexOfPid(s.waitingRcv, id) == Some(r.i)
    ensures Locate(s, id) == Nowhere <==> !Present(s, id)
  {
  }

  /**
   * procinfo_I's lookup finds a record exactly when some structure holds the
   * id, the record carries that id, and the running slot is looked at first.
   */
  lemma LookupFacts(s: Sys, id: nat)
    ensures Lookup(s, id).Some? <==> Present(s, id)
    ensures Lookup(s, id).Some? ==> Lookup(s, id).value.pid == id
    ensures Current(s).pid == id ==> Lookup(s, id) == Some(Current(s))
    ensures Current(s).pid != id && s.init.pid == id ==> Lookup(s, id) == Some(s.init)
  {
  }
}
