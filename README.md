# CPU scheduler simulator: scheduler and synchronisation core

This project models the process scheduler of an interactive CPU-scheduling
simulator written in C (`main.c`).

**Processes.** The simulator keeps process control blocks (PCBs). Each
holds:

- an id;
- a priority from 0 (top) to 2;
- a state: READY, RUNNING or BLOCKED;
- the peer's id;
- a 40-character mailbox.

**Where processes wait.** A process waits in one of these places:

- three ready levels;
- the lists of five counting semaphores;
- the list of senders waiting for a reply;
- the list of processes waiting to receive.

**The init process.** A special idle process, `init` (id 0), runs whenever
nothing else can. It is never queued, and it can be killed only when it is
alone. Killing it ends the simulation.

**Commands modelled.**

- create, fork, kill, exit, quantum expiry;
- send, receive, reply;
- semaphore new, P and V;
- the lookup of process info.

**Layout.**

- `process.dfy` (module `Process`). The PCB value, the sentinel and size
  constants, and the list primitives the code applies:
  - prepend at the front;
  - trim from the back;
  - remove at a found position;
  - the first-match search by id.

  It also defines the *census*: the multiset of (id, priority) pairs a
  list holds.
- `system.dfy` (module `System`). The scheduler's globals as one value
  `Sys`, and its invariant `Inv`, which says:
  - which states each list may hold (READY or BLOCKED on a ready level,
    BLOCKED on a wait list), with every priority below 3 and every mailbox
    at most 40 characters;
  - that each ready level respects its capacity;
  - that a semaphore slot has no more waiters than the magnitude of its
    negative counter, so an uninitialised slot has none;
  - that the id counter is at most 65535;
  - that `init` is never BLOCKED, and is READY while an ordinary process
    runs; the running process is never BLOCKED.

  `init` is a separate field of `Sys`, and no operation puts that field
  on a list, so `init` stays off the lists by construction rather than by
  the invariant.

  It also gives one function per operation, from the state before to the
  state after.
- `properties.dfy` (module `Properties`). Lemmas about those functions:
  - every operation keeps `Inv`;
  - how each changes the census of processes other than `init` (kept,
    grown by the new process, or shrunk by the one removed or lost);
  - and what each does to the record it touches.
- `engine.dfy` (module `Engine`). `class Simulator` holds the globals as
  fields, with the three ready levels and the five semaphore slots held in
  arrays. Each C function is a method that updates them in place, with the
  same loops. Every method is proved to leave the state that the matching
  `System` function gives, and the command methods also keep `Valid()`.
- `findings.dfy` (module `Findings`). Two places where the code departs
  from what it evidently means, modelled as written, each with a state
  that exhibits the difference.

Queues have index 0 as their front. `ListPrepend` inserts there and
`ListTrim` removes the last element, so within a level the oldest process
is dispatched first.

**Quirks kept on purpose.** The model keeps these behaviours of the code:

- When `enqueueProc` falls back to another level, it does not write the
  new level into the PCB's priority.
- Callers ignore the result of `enqueueProc`. In `quantum_Q`, `send_S`,
  `reply_Y` and `sem_V`, a process that finds every level full is dropped
  from all lists.
- A process that was READY when dispatched keeps the state READY while it
  runs. Only a BLOCKED one becomes RUNNING, and its mailbox is cleared.
- `reply_Y` follows the code, not its header comment: replying to a
  process that is not waiting for a reply fails and changes nothing.
- `sem_N` writes the initial value into the same slot that uses 999
  (`UNUSED`) as its "not initialised" mark.

## Model

| member | source | states |
|---|---|---|
| Process.IndexOfPid | main.c:141-147 | ListSearch with findPID as its comparator, scanning from the front: the first index whose id matches, none before it has that id, and None exactly when no element has the id |
| Engine.FindPid | main.c:141-147 | the loop over a list returns the position of the first element whose id matches, agreeing with IndexOfPid |
| System.LevelSearch | main.c:157-168 | the first ready level (from the given one) that holds the id, no earlier level holds it, and -1 exactly when none does |
| Engine.Simulator.PriorityQSearch | main.c:157-168 | the loop over the three level arrays returns the same level as LevelSearch |
| System.SemSearch | main.c:173-184 | the first *initialised* semaphore slot whose list holds the id, no earlier initialised slot holds it, and -1 exactly when none does |
| Engine.Simulator.SemSearch | main.c:173-184 | the loop over the five slots returns the same slot as System.SemSearch |
| System.Locate | main.c:453-472 | the lookup of kill_K, send_S and procinfo_I: the place it returns holds a record with the id, and Nowhere exactly when no searched structure holds it |
| Properties.LocateOrder | main.c:453-472 | the search order: the running slot, then init, then the first level holding the id, then the first initialised semaphore slot, then the reply-wait list, then the receive-wait list, each with the first match from the front; each place is returned exactly when every earlier search found nothing |
| Engine.Simulator.Find | main.c:453-472 | the chain of searches returns the place Locate gives |
| System.NoOtherProc | main.c:188-208 | thereIsNoProc as intended: every level, both wait lists and every initialised slot's own list are empty and init holds the CPU; tied to the census by Properties.NoOtherProcIffAlone |
| Engine.Simulator.ThereIsNoProc | main.c:188-208 | the result is the corrected thereIsNoProc test evaluated on the current state |
| Properties.NoOtherProcIffAlone | main.c:188-208 | in any well-formed state, thereIsNoProc (corrected) holds exactly when no process besides init exists anywhere (census empty) |
| System.AdmitLevel | main.c:214-256 | enqueueProc's choice: the own level if it has room, otherwise the lower-numbered other level with room, otherwise the remaining one; -1 exactly when all three are full |
| System.Admit | main.c:214-256 | enqueueProc for a non-init PCB: prepend to the level AdmitLevel picks, priority field untouched, or no change when all levels are full; its effect is stated by Properties.AdmitEffect and Properties.AdmitCensus |
| Engine.Simulator.EnqueueProc | main.c:214-256 | prepends the PCB to the level AdmitLevel picks and changes nothing else; reports failure exactly when no level has room |
| Properties.AdmitEffect | main.c:214-256 | on success only the chosen level changes, by gaining the PCB at its front; on failure the state is unchanged |
| Properties.AdmitCensus | main.c:214-256 | a successful enqueue adds exactly the PCB's (id, priority) to the census |
| Properties.AdmitKeepsInv | main.c:214-256 | enqueueing a READY or BLOCKED non-init PCB keeps the invariant, capacity included |
| Properties.AdmitDoesNotOvertake | main.c:214-256 | a PCB enqueued at the first non-empty level or a lower one does not change who is dispatched next |
| Engine.Simulator.CreateProc | main.c:259-276 | returns a READY, priority-0 PCB with the old counter as id, no peer and an empty mailbox; the counter advances, wrapping 65535 to 0 |
| System.Dispatch | main.c:281-309 | runNextProc: the last (oldest) PCB of the first non-empty level runs, resumed through the BLOCKED rule, or init runs marked RUNNING; stated by Properties.DispatchOrder and Properties.DispatchIdle |
| Engine.Simulator.RunNextProc | main.c:281-309 | leaves the state Dispatch gives |
| Properties.DispatchOrder | main.c:281-309 | the oldest PCB of the first non-empty level is removed and runs; a BLOCKED one turns RUNNING with its mailbox and peer cleared, a READY one runs unchanged |
| Properties.DispatchIdle | main.c:281-309 | with all levels empty, init runs and is marked RUNNING |
| Properties.DispatchFacts | main.c:281-309 | dispatch keeps the invariant and its census is exactly what was queued |
| System.DeleteProc | main.c:315-344 | deleteProc by victim: init only under the corrected thereIsNoProc, which clears the run flag; the runner triggers a dispatch; a detached record changes nothing |
| Engine.Simulator.DeleteProc | main.c:315-344 | init is deleted only when thereIsNoProc holds, which ends the run; deleting the running process dispatches; a detached one leaves the state as it is |
| Engine.Simulator.StepBack | main.c:410 | highestPID-- on the counter, modelled with the wrap createProc applies |
| System.Spawn | main.c:404-411 | the shared create/fork step: the counter advances and the record is admitted, or on failure the whole state, counter included, is as before; stated by Properties.SpawnFacts |
| System.Create | main.c:401-416 | create_C: Spawn of a fresh priority-0 record under the counter; stated by Properties.CreateFacts |
| Engine.Simulator.Create | main.c:401-416 | keeps Valid and reaches Create's state; reports failure exactly when the state is unchanged |
| Properties.CreateFacts | main.c:401-416 | on success the new PCB (old counter, priority 0, READY) is at the front of the chosen level, the counter has advanced with the wrap, the census grows by its tag and the runner is the same; on failure nothing changes |
| System.Fork | main.c:421-449 | fork_F: init is refused; otherwise Spawn of a child copying the runner's priority, peer and mailbox; stated by Properties.ForkFacts |
| Engine.Simulator.Fork | main.c:421-449 | keeps Valid and reaches Fork's state; reports failure exactly when the state is unchanged |
| Properties.ForkFacts | main.c:421-449 | forking init changes nothing; otherwise the child copies the parent's priority, peer and mailbox under the next id and is queued at the chosen level (census grows by its tag), or nothing changes when all levels are full |
| System.Exit | main.c:484-493 | exit_E: deleteProc of init when init runs, otherwise of the running process; stated by Properties.ExitFacts |
| Engine.Simulator.Exit | main.c:484-493 | keeps Valid and reaches Exit's state |
| Properties.ExitFacts | main.c:484-493 | exiting a user process removes exactly its tag from the census; exiting init ends the run exactly when no other process exists and otherwise changes nothing |
| System.Kill | main.c:453-480 | kill_K: by the place Locate finds, exit for the runner, deleteProc of init, unlinking from the list it was found in, or no change for an unknown id; stated by Properties.KillCases and Properties.KillFacts |
| Engine.Simulator.Kill | main.c:453-480 | keeps Valid and reaches Kill's state |
| Properties.KillCases | main.c:453-480 | an unknown id changes nothing; a queued or blocked process is unlinked from its list; the running id behaves as exit; init's id goes to deleteProc of init |
| Properties.KillFacts | main.c:453-480 | an unknown id leaves the state unchanged; killing a listed process removes exactly its tag and leaves runner, init and run flag; killing the running user process removes its tag; killing init ends the run exactly when it is alone |
| Properties.KillKeepsInv | main.c:453-480 | kill keeps the invariant for every id |
| System.Quantum | main.c:497-519 | quantum_Q: the runner becomes READY one level lower (stopping at 2), is re-admitted unless it is init, and a dispatch follows; stated by Properties.QuantumFacts |
| Engine.Simulator.Quantum | main.c:497-519 | keeps Valid and reaches Quantum's state |
| Properties.QuantumFacts | main.c:497-519 | the runner's priority rises by one level until level 2 and never past it; init is never queued and the census is kept; a user runner is re-queued with its new tag, or lost when all levels are full |
| Properties.QuantumKeepsInv | main.c:497-519 | quantum expiry keeps the invariant |
| System.Deliver | main.c:537-560 | the mailbox write of send_S at the place found, with a receive-waiter moved to a ready level first; stated by Properties.DeliverFacts and Properties.DeliverFrame |
| Engine.Simulator.Deliver | main.c:537-560 | leaves the state Deliver gives: the found record gets the sender as peer and the text as mailbox, and a receive-waiter is first moved to a ready level |
| Properties.DeliverFrame | main.c:537-560 | delivery changes only the list, slot or record the target was found in (within a list only the found entry, in a slot not the counter); a receive-waiter's delivery leaves the semaphores, reply-wait list, runner, init and run flag alone |
| Properties.DeliverFacts | main.c:537-560 | delivery keeps the invariant; a record found in place gets exactly the mail; a receive-waiter gets the mail and is prepended to the chosen level and removed from the wait list; the census is kept unless that enqueue fails, in which case exactly the receiver is lost |
| System.Send | main.c:523-586 | send_S: no change for an unknown id; otherwise Deliver, then a user sender blocks at the front of the reply-wait list and a dispatch follows; stated by Properties.SendCases and Properties.SendFacts |
| Engine.Simulator.Send | main.c:523-586 | keeps Valid and reaches Send's state |
| Properties.SendCases | main.c:523-586 | an unknown id changes nothing; otherwise the mail is delivered, and a user sender is then BLOCKED on the reply list followed by a dispatch, while init keeps running |
| Properties.SendFacts | main.c:523-586 | an unknown id changes nothing; init sends without blocking; a user sender ends up at the front of the reply list, BLOCKED, same id and priority, and holds its own message when it sent to itself |
| Properties.SendKeepsInv | main.c:523-586 | send keeps the invariant and the census, except for a receiver lost to full levels |
| System.Receive | main.c:590-615 | receive_R: pending mail is cleared from the runner; without mail init keeps running and a user runner blocks at the front of the receive-wait list before a dispatch; stated by Properties.ReceiveFacts |
| Engine.Simulator.Receive | main.c:590-615 | keeps Valid, reaches Receive's state, and returns the pending message (sender and text) exactly when the mailbox was non-empty |
| Properties.ReceiveFacts | main.c:590-615 | with mail, the runner's mailbox and peer are cleared and no list changes; without mail, init is left as it is, and a user runner is prepended, BLOCKED, to the receive list |
| Properties.ReceiveKeepsInv | main.c:590-615 | receive keeps the invariant and the census |
| System.Reply | main.c:619-638 | reply_Y: only the first reply-waiter with the id is taken off the list, given the text and the replier as peer, and admitted; stated by Properties.ReplyFacts |
| Engine.Simulator.Reply | main.c:619-638 | keeps Valid, reaches Reply's state, and reports success exactly when the id is on the reply list |
| Properties.ReplyFacts | main.c:619-638 | replying to an id not on the reply list changes nothing; otherwise that sender leaves the list, gets the reply and the replier as peer, and is prepended to the chosen level (census kept) or lost with all levels full |
| System.SemInit | main.c:644-653 | sem_N: an id below 5 whose slot reads UNUSED gets the value and an empty list; otherwise no change; stated by Properties.SemInitFacts |
| Engine.Simulator.SemN | main.c:644-653 | keeps Valid, reaches SemInit's state, and reports success exactly when the id is below 5 and the slot was uninitialised |
| Properties.SemInitFacts | main.c:644-653 | an uninitialised slot below 5 gets the value and an empty list, the other slots are untouched; any other request changes nothing; the census is kept |
| System.SemP | main.c:658-690 | sem_P: no change on an uninitialised slot or when init runs; otherwise the counter drops by one, and a counter at most 0 blocks the runner at the front of the slot's list before a dispatch; stated by Properties.SemPEffect |
| Engine.Simulator.SemP | main.c:658-690 | keeps Valid and reaches SemP's state |
| Properties.SemPEffect | main.c:658-690 | P on an uninitialised slot or by init changes nothing; otherwise the value drops by one; the runner blocks (prepended to the slot's list) exactly when the value was at most 0, and the other slots are untouched |
| Properties.SemPCensus | main.c:658-690 | P never creates or loses a process |
| System.SemV | main.c:695-722 | sem_V: no change on an uninitialised slot; otherwise the counter rises by one and the oldest waiter, made READY, is admitted; stated by Properties.SemVEffect |
| Engine.Simulator.SemV | main.c:695-722 | keeps Valid and reaches SemV's state |
| Properties.SemVEffect | main.c:695-722 | V on an uninitialised slot changes nothing; otherwise the value rises by one, the oldest waiter (if any) leaves the list READY and is prepended to the chosen level, and nothing but the levels and that slot changes |
| Properties.SemVCensus | main.c:695-722 | V keeps the census, except that a woken process is lost when all levels are full |
| Properties.SemVReachesSentinel | main.c:40 | a V from 998 writes 999, the uninitialised mark, so P and V then change nothing and sem_N re-initialises the slot |
| System.Lookup | main.c:726-748 | procinfo_I's lookup: the record at the place Locate finds, or None; stated by Properties.LookupFacts |
| Engine.Simulator.ProcInfo | main.c:726-748 | returns the record Lookup gives: one exactly when some searched structure holds the id, and always with that id |
| Properties.LookupFacts | main.c:726-748 | the lookup finds a record exactly when the id is present, the record has that id, and the running slot then init take precedence |
| Engine.Simulator.constructor | main.c:814-825 | the set-up main performs: empty lists, uninitialised semaphores, init with id 0 running, counter 1 |
| Properties.InitialOk | main.c:814-825 | the initial state satisfies the invariant, holds no process besides init, and passes thereIsNoProc |
| Findings.NoOtherProcAsWritten | main.c:188-208 | thereIsNoProc as written: the semaphore loop tests the ready level with the slot's index, slots 3 and 4 reading nothing |
| Findings.NoOtherProcAsWrittenWeaker | main.c:201 | the as-written test holds whenever the corrected one does, and is exactly the corrected test with every semaphore list treated as empty |
| Findings.KillInitAsWritten | main.c:315-330 | deleteProc of init with the as-written test: the run ends whenever that test passes |
| Findings.KillInitWithSemaphoreWaiter | main.c:201 | with one process blocked on semaphore 0, the as-written test lets init be killed, ending the run, while the corrected kill leaves the state unchanged |
| Findings.SpawnAsWritten | main.c:404-411 | the create/fork step as written: on a failed admission the counter is decremented in 32-bit unsigned arithmetic from its advanced value |
| Findings.CreateAsWritten | main.c:401-416 | create_C as written: SpawnAsWritten of a fresh record |
| Findings.CreateAsWrittenAwayFromWrap | main.c:410 | away from counter 65535, the as-written step-back gives the same state as the corrected create |
| Findings.CreateAsWrittenPastWrap | main.c:410 | with every level of capacity 1 full and the counter at 65535, the as-written create changes exactly the counter, to 4294967295, outside the wrapped range, while the corrected create leaves the state unchanged |
| Findings.ForkAsWritten | main.c:421-449 | fork_F as written: init refused, otherwise SpawnAsWritten of the child |
| Findings.ForkAsWrittenAwayFromWrap | main.c:443 | away from counter 65535, the as-written fork gives the same state as the corrected fork |
| Findings.ForkAsWrittenPastWrap | main.c:443 | with process 4 running, every level full and the counter at 65535, the as-written fork changes exactly the counter, to 4294967295, while the corrected fork leaves the state unchanged |

## Left out

- Printing, prompts and the command loop are not modelled, and neither is
  the input parsing (`getstdinStr`, `strtoi`, the `strtol` checks). These
  are I/O; the model starts where a command's arguments are already
  numbers and strings.
- `totalinfo_T` is not modelled. It only prints.
- The list library (`list.h`, its node pool and its cursor) is not part of
  this model. Lists are sequences, so the search cursor is replaced by the
  index the search returns, and every `ListSearch` is assumed to scan from
  the front of the list; a search that starts at a cursor left further
  along the list is not modelled.
- Allocation and `free` are not modelled. Accordingly, the null `newProc`
  branches of `create_C` and `fork_F` are left out too.
- The list library's node limit is modelled as `capacity`, a constructor
  parameter applied to each ready level. The wait lists and semaphore
  lists are unbounded.
- Ids are not shown to be unique, because the 65535 wrap can reuse an id,
  even init's 0. The census multiset takes the place of "every process is
  in exactly one place".
- `thereIsNoProc` reads `priorityQ[3]` and `priorityQ[4]`, which lies
  outside the array. The as-written model treats those reads as finding
  nothing.
- `send_S` and `reply_Y` have two orders where the model uses one:
  - The source moves a receive-waiter or replied-to process onto a ready
    level and only then writes its mailbox. The model writes the mailbox
    first.
  - In both, the record is the same object, so the final state is the
    same.
- `sem_V` increments the counter after the enqueue. These are independent
  writes, and the model applies them together.
- Engine.Simulator.Send and Engine.Simulator.Reply require the text to fit
  the 41-byte mailbox (at most 40 characters, no NUL). `strcpy` of a longer
  text would overflow the mailbox. The input buffer caps the text but does
  not enforce 40.
- Engine.Simulator.SemP and Engine.Simulator.SemV require the id to be
  below 5. `sem_P` and `sem_V` index `sems[semID]` without checking, so a
  larger id reads outside the array.
- Semaphore counters are unbounded integers. The 32-bit overflow of `int`
  counters is not modelled.
- Engine.Simulator.StepBack models `highestPID--` with the wrap back to
  65535 rather than 32-bit wrapping. The wrapping as written is modelled
  separately, in Findings.SpawnAsWritten.

## Findings

| source | as written | input that shows it | evidently intended | confidence | as-written member | corrected member |
|---|---|---|---|---|---|---|
| main.c:201 | the semaphore loop of `thereIsNoProc` tests `ListCount(priorityQ[i])` instead of the slot's own list | semaphore 0 initialised to 0 with process 1 blocked on it, init running, all other lists empty, then `K 0` | test `ListCount(sems[i].procs)`, so init is not killed while a process waits on a semaphore | high (not executed) | Findings.KillInitWithSemaphoreWaiter | Properties.NoOtherProcIffAlone |
| main.c:410 | after a failed enqueue, `highestPID--` undoes the counter step, but when `createProc` has just wrapped 65535 to 0 the decrement gives 4294967295 | counter at 65535 and every ready level full, then `C` | restore the counter to 65535, leaving the state as it was | high (not executed) | Findings.CreateAsWrittenPastWrap | Properties.CreateFacts |
| main.c:443 | the same step back in `fork_F` | a process running, counter at 65535 and every ready level full, then `F` | restore the counter to 65535, leaving the state as it was | high (not executed) | Findings.ForkAsWrittenPastWrap | Properties.ForkFacts |
