/**
 * Process control blocks and the list primitives the scheduler applies to
 * queues of them.  A queue is a sequence whose index 0 is the front of the
 * list: ListPrepend inserts there and ListTrim removes the last element,
 * so every queue is first-in first-out.
 */
module Process {

  /** Sentinel for "no peer" in a PCB and for "not initialised" in a semaphore slot. */
  const UNUSED: nat := 999
  /** Number of priority levels; level 0 is the highest. */
  const LEVELS: nat := 3
  /** The lowest level, where degradation stops. */
  const LOWEST: nat := 2
  /** Number of semaphore slots. */
  const SEMS: nat := 5
  /** Longest text a mailbox holds (the buffer keeps one more byte for the terminator). */
  const MSG_MAX: nat := 40
  /** The id after which createProc wraps the counter back to 0. */
  const PID_WRAP: nat := 65535
  /** Number of values of a 32-bit unsigned int, the type of the id counter. */
  const UINT_RANGE: nat := 0x1_0000_0000

  datatype Option<T> = None | Some(value: T)

  datatype State = Ready | Running | Blocked

  /** A process control block: id, priority (0 top, 2 lowest), state, peer id and mailbox. */
  datatype Pcb = Pcb(pid: nat, priority: nat, state: State, remote: nat, msg: string)

  /** A message surfaced to a process: who sent it and its text. */
  datatype Letter = Letter(from: nat, text: string)

  /** A C string that fits the 41-byte mailbox. */
  predicate ValidMsg(m: string)
  {
    |m| <= MSG_MAX && '\0' !in m
  }

  /** The record createProc builds for a fresh id. */
  function NewPcb(pid: nat): Pcb
  {
    Pcb(pid, 0, Ready, UNUSED, [])
  }

  /** A delivered message: the text lands in the mailbox and the peer becomes the sender. */
  function Mail(p: Pcb, from: nat, text: string): Pcb
  {
    p.(remote := from, msg := text)
  }

  function Last(q: seq<Pcb>): Pcb
    requires q != []
  {
    q[|q| - 1]
  }

  /** ListTrim: the queue without its last (oldest) element. */
  function Trim(q: seq<Pcb>): (r: seq<Pcb>)
    requires q != []
    ensures |r| == |q| - 1 && q == r + [Last(q)]
  {
    q[..|q| - 1]
  }

  /** ListRemove at the element found by ListSearch. */
  function RemoveAt(q: seq<Pcb>, i: nat): (r: seq<Pcb>)
    requires i < |q|
    ensures |r| == |q| - 1
    ensures forall j :: 0 <= j < i ==> r[j] == q[j]
    ensures forall j :: i <= j < |r| ==> r[j] == q[j + 1]
  {
    q[..i] + q[i + 1..]
  }

  /** Some element of the queue carries the id. */
  predicate HasPid(q: seq<Pcb>, id: nat)
  {
    exists j :: 0 <= j < |q| && q[j].pid == id
  }

  /**
   * ListSearch with the comparator findPID: the position of the first
   * element, from the front, whose id is `id`.
   */
  function IndexOfPid(q: seq<Pcb>, id: nat): (r: Option<nat>)
    ensures r.Some? ==> r.value < |q| && q[r.value].pid == id
    ensures r.Some? ==> forall j :: 0 <= j < r.value ==> q[j].pid != id
    ensures r.None? <==> !HasPid(q, id)
  {
    if q == [] then None
    else if q[0].pid == id then Some(0)
    else
      match IndexOfPid(q[1..], id)
      case None =>
        assert forall j :: 1 <= j < |q| ==> q[j] == q[1..][j - 1];
        None
      case Some(k) => Some(k + 1)
  }

  // ---------------------------------------------------------------------
  // Census: which (id, priority) pairs a queue holds, counted with repetition.
  // ---------------------------------------------------------------------

  function Tag(p: Pcb): (nat, nat)
  {
    (p.pid, p.priority)
  }

  function Tags(q: seq<Pcb>): multiset<(nat, nat)>
  {
    if q == [] then multiset{} else multiset{Tag(q[0])} + Tags(q[1..])
  }

  /** The tags of several queues together. */
  function LevelTags(qs: seq<seq<Pcb>>): multiset<(nat, nat)>
  {
    if qs == [] then multiset{} else Tags(qs[0]) + LevelTags(qs[1..])
  }

  /** Multiset addition cancels. */
  lemma Cancel(a: multiset<(nat, nat)>, b: multiset<(nat, nat)>, c: multiset<(nat, nat)>)
    requires a + c == b + c
    ensures a == b
  {
    assert forall x :: a[x] == (a + c)[x] - c[x];
    assert forall x :: b[x] == (b + c)[x] - c[x];
  }

  /** An exchange of one part of a sum carries over to the whole sum. */
  lemma Regroup(a': multiset<(nat, nat)>, a: multiset<(nat, nat)>, t: multiset<(nat, nat)>, t': multiset<(nat, nat)>,
                r: multiset<(nat, nat)>)
    requires a' + t == a + t'
    ensures (a' + r) + t == (a + r) + t'
  {
    assert forall x :: ((a' + r) + t)[x] == (a' + t)[x] + r[x];
    assert forall x :: ((a + r) + t')[x] == (a + t')[x] + r[x];
  }

  /** The same exchange with the unchanged part in front. */
  lemma RegroupFront(a': multiset<(nat, nat)>, a: multiset<(nat, nat)>, t: multiset<(nat, nat)>, t': multiset<(nat, nat)>,
                     r: multiset<(nat, nat)>)
    requires a' + t == a + t'
    ensures (r + a') + t == (r + a) + t'
  {
    assert forall x :: ((r + a') + t)[x] == (a' + t)[x] + r[x];
    assert forall x :: ((r + a) + t')[x] == (a + t')[x] + r[x];
  }

  /** Moving a part to the end of a sum. */
  lemma Swap(a: multiset<(nat, nat)>, b: multiset<(nat, nat)>, c: multiset<(nat, nat)>)
    ensures a + (c + b) == (a + b) + c
  {
    assert forall x :: (a + (c + b))[x] == ((a + b) + c)[x];
  }

  /** Taking one element out of a part takes it out of the sum. */
  lemma Removed(a': multiset<(nat, nat)>, a: multiset<(nat, nat)>, t: multiset<(nat, nat)>, x: (nat, nat))
    requires a' + (t + multiset{x}) == a + t
    ensures a' + multiset{x} == a
  {
    assert forall y :: (a' + multiset{x})[y] == (a' + (t + multiset{x}))[y] - t[y];
  }

  /** Putting one element into a part puts it into the sum. */
  lemma Added(a': multiset<(nat, nat)>, a: multiset<(nat, nat)>, t: multiset<(nat, nat)>, x: (nat, nat))
    requires a' + t == a + (multiset{x} + t)
    ensures a' == a + multiset{x}
  {
    assert forall y :: a'[y] == (a + (multiset{x} + t))[y] - t[y];
  }

  lemma {:induction false} TagsAppend(a: seq<Pcb>, b: seq<Pcb>)
    ensures Tags(a + b) == Tags(a) + Tags(b)
  {
    if a == [] {
      assert a + b == b;
    } else {
      assert (a + b)[1..] == a[1..] + b;
      TagsAppend(a[1..], b);
    }
  }

  lemma TagsPrepend(p: Pcb, q: seq<Pcb>)
    ensures Tags([p] + q) == multiset{Tag(p)} + Tags(q)
  {
    assert ([p] + q)[1..] == q;
  }

  lemma TagsRemoveAt(q: seq<Pcb>, i: nat)
    requires i < |q|
    ensures Tags(q) == Tags(RemoveAt(q, i)) + multiset{Tag(q[i])}
  {
    var a, b, x := q[..i], q[i + 1..], q[i];
    assert Tags(q) == Tags(a) + (multiset{Tag(x)} + Tags(b)) by {
      assert q == a + ([x] + b);
      TagsAppend(a, [x] + b);
      TagsPrepend(x, b);
    }
    assert Tags(RemoveAt(q, i)) == Tags(a) + Tags(b) by {
      TagsAppend(a, b);
    }
    Swap(Tags(a), Tags(b), multiset{Tag(x)});
  }

  lemma TagsTrim(q: seq<Pcb>)
    requires q != []
    ensures Tags(q) == Tags(Trim(q)) + multiset{Tag(Last(q))}
  {
    assert Trim(q) == RemoveAt(q, |q| - 1);
    TagsRemoveAt(q, |q| - 1);
  }

  lemma TagsUpdate(q: seq<Pcb>, i: nat, p: Pcb)
    requires i < |q| && Tag(p) == Tag(q[i])
    ensures Tags(q[i := p]) == Tags(q)
  {
    TagsRemoveAt(q, i);
    TagsRemoveAt(q[i := p], i);
    assert RemoveAt(q[i := p], i) == RemoveAt(q, i);
  }

  lemma {:induction false} TagsEmpty(q: seq<Pcb>)
    ensures Tags(q) == multiset{} <==> q == []
  {
    if q != [] {
      assert Tag(q[0]) in Tags(q);
    }
  }

  lemma {:induction false} LevelTagsUpdate(qs: seq<seq<Pcb>>, i: nat, q: seq<Pcb>)
    requires i < |qs|
    ensures LevelTags(qs[i := q]) + Tags(qs[i]) == LevelTags(qs) + Tags(q)
  {
    if i == 0 {
      assert qs[i := q][1..] == qs[1..];
    } else {
      var rest := qs[1..];
      var a, b, c := Tags(qs[0]), LevelTags(rest[i - 1 := q]), Tags(rest[i - 1]);
      assert LevelTags(qs[i := q]) == a + b by {
        assert qs[i := q][1..] == rest[i - 1 := q];
      }
      assert b + c == LevelTags(rest) + Tags(q) by {
        LevelTagsUpdate(rest, i - 1, q);
      }
      RegroupFront(b, LevelTags(rest), c, Tags(q), a);
    }
  }

  lemma {:induction false} LevelTagsEmpty(qs: seq<seq<Pcb>>)
    ensures LevelTags(qs) == multiset{} <==> forall l :: 0 <= l < |qs| ==> qs[l] == []
  {
    if qs != [] {
      LevelTagsEmpty(qs[1..]);
      TagsEmpty(qs[0]);
      assert forall l :: 1 <= l < |qs| ==> qs[l] == qs[1..][l - 1];
    }
  }
}
