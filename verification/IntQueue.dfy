// The ring through which interrupt handlers hand their posts to the ISR queue task (os_int.c).
// Interrupts may post between any two critical sections of the task.

module IntQueue {
  import opened Lists

  const QTY_LIMIT := 0x1_0000

  // What a post asks for: the object type, the object, and the arguments of the post.
  datatype Kind = NoObject | FlagGroup | MessageQ | Semaphore | TaskMsg | TaskSignal | TickSignal
  datatype Entry = Entry(kind: Kind, obj: nat, msg: int, msgSize: nat, flags: nat, opt: nat)

  const NOTHING := Entry(NoObject, 0, 0, 0, 0, 0)

  // i for a ring of n slots, where i is less than one turn too large.
  function Wrap(i: nat, n: nat): (r: nat)
    requires n > 0 && i < 2 * n
    ensures r < n
  {
    if i < n then i else i - n
  }

  // OSIntQInPtr and OSIntQOutPtr as places in the array; ready says whether the task is on
  // the ready list of priority 0.
  datatype Ring = Ring(slots: seq<Entry>, inIx: nat, outIx: nat, nbr: nat, peak: nat, overflows: nat, ready: bool)

  ghost predicate Proper(q: Ring) {
    |q.slots| >= 2 && q.inIx < |q.slots| && q.outIx < |q.slots| && q.nbr <= |q.slots|
  }

  // After OS_IntQTaskInit: the ring is empty, and creating the task has made it ready.
  function Initial(slots: seq<Entry>): Ring {
    Ring(slots, 0, 0, 0, 0, 0, true)
  }

  // OS_IntQPost.
  function Post(q: Ring, e: Entry): Ring
    requires Proper(q)
  {
    if q.nbr < |q.slots| then
      Ring(q.slots[q.inIx := e], Wrap(q.inIx + 1, |q.slots|), q.outIx, q.nbr + 1,
           if q.peak < q.nbr + 1 then q.nbr + 1 else q.peak, q.overflows, true)
    else q.(overflows := (q.overflows + 1) % QTY_LIMIT)
  }

  // The critical section at the start of OS_IntQRePost; the entry read is slots[outIx].
  function Fetch(q: Ring): Ring
    requires Proper(q)
  {
    q.(outIx := Wrap(q.outIx + 1, |q.slots|))
  }

  // The two critical sections of OS_IntQTask.
  function Decrement(q: Ring): Ring
    requires q.nbr > 0
  {
    q.(nbr := q.nbr - 1)
  }

  function Park(q: Ring): Ring {
    q.(ready := false)
  }

  // How far the task is: before the test of the entry count, before the critical section of
  // OS_IntQRePost, before posting the copy it took, before counting down, or before taking
  // itself off the ready list.
  datatype Pc = Testing | Fetching | Posting(e: Entry) | Counting | Parking

  // The ring, the task, and what happened so far: the posts accepted and the posts made by
  // the task on behalf of the interrupt handlers.
  datatype Machine = Machine(q: Ring, pc: Pc, accepted: seq<Entry>, reposted: seq<Entry>)

  datatype Step = Interrupt(e: Entry) | Task

  function OnInterrupt(m: Machine, e: Entry): Machine
    requires Proper(m.q)
  {
    m.(q := Post(m.q, e), accepted := if m.q.nbr < |m.q.slots| then m.accepted + [e] else m.accepted)
  }

  // One turn of the task; it has none while it is off the ready list.
  function OnTask(m: Machine): Machine
    requires Inv(m)
  {
    if !m.q.ready then m
    else match m.pc
      case Testing => m.(pc := if m.q.nbr == 0 then Parking else Fetching)
      case Fetching => m.(q := Fetch(m.q), pc := Posting(m.q.slots[m.q.outIx]))
      case Posting(e) => m.(reposted := m.reposted + [e], pc := Counting)
      case Counting => m.(q := Decrement(m.q), pc := Testing)
      case Parking => m.(q := Park(m.q), pc := Testing)
  }

  function Next(m: Machine, s: Step): Machine
    requires Inv(m)
  {
    match s case Interrupt(e) => OnInterrupt(m, e) case Task => OnTask(m)
  }

  // Entries not yet read by the task: one of those counted may have been read already.
  function UnreadCount(m: Machine): int {
    m.q.nbr - if m.pc.Posting? || m.pc.Counting? then 1 else 0
  }

  ghost function Unread(q: Ring, n: nat): seq<Entry>
    requires Proper(q) && n <= |q.slots|
  {
    seq(n, k requires 0 <= k < n => q.slots[Wrap(q.outIx + k, |q.slots|)])
  }

  ghost function InHand(pc: Pc): seq<Entry> {
    if pc.Posting? then [pc.e] else []
  }

  // Every accepted post has been made, is in the hands of the task, or is still in the ring,
  // in the order of acceptance.
  ghost predicate Inv(m: Machine) {
    var n := UnreadCount(m);
    && Proper(m.q) && n >= 0 && (m.pc.Fetching? ==> n > 0)
    && m.q.inIx == Wrap(m.q.outIx + n, |m.q.slots|)
    && m.accepted == m.reposted + InHand(m.pc) + Unread(m.q, n)
  }

  lemma InitialInv(slots: seq<Entry>)
    requires |slots| >= 2
    ensures Inv(Machine(Initial(slots), Testing, [], []))
  {
  }

  // An accepted post does not touch an entry that is still to be read.
  lemma PostAppends(q: Ring, n: nat, e: Entry)
    requires Proper(q) && q.nbr < |q.slots| && n <= q.nbr && q.inIx == Wrap(q.outIx + n, |q.slots|)
    ensures Unread(Post(q, e), n + 1) == Unread(q, n) + [e]
    ensures Post(q, e).inIx == Wrap(q.outIx + n + 1, |q.slots|)
  {
    var q' := Post(q, e);
    forall k | 0 <= k < n + 1
      ensures Unread(q', n + 1)[k] == (Unread(q, n) + [e])[k]
    {
      assert k < n ==> Wrap(q.outIx + k, |q.slots|) != q.inIx;
    }
  }

  lemma FetchTakesFirst(q: Ring, n: nat)
    requires Proper(q) && 0 < n <= |q.slots|
    ensures Unread(q, n) == [q.slots[q.outIx]] + Unread(Fetch(q), n - 1)
  {
    var rest := Unread(Fetch(q), n - 1);
    forall k | 0 < k < n
      ensures Unread(q, n)[k] == rest[k-1]
    {
      assert Wrap(q.outIx + k, |q.slots|) == Wrap(Fetch(q).outIx + (k - 1), |q.slots|);
    }
    assert Unread(q, n)[0] == q.slots[Wrap(q.outIx + 0, |q.slots|)];
  }

  lemma InterruptKeeps(m: Machine, e: Entry)
    requires Inv(m)
    ensures Inv(OnInterrupt(m, e))
  {
    var n := UnreadCount(m);
    if m.q.nbr < |m.q.slots| {
      PostAppends(m.q, n, e);
      assert m.reposted + InHand(m.pc) + (Unread(m.q, n) + [e]) == m.accepted + [e];
    } else {
      assert Unread(Post(m.q, e), n) == Unread(m.q, n);
    }
  }

  lemma TaskKeeps(m: Machine)
    requires Inv(m)
    ensures Inv(OnTask(m))
  {
    var n := UnreadCount(m);
    match m.pc
    case Testing =>
    case Fetching =>
      FetchTakesFirst(m.q, n);
      var first := m.q.slots[m.q.outIx];
      assert m.reposted + [] + ([first] + Unread(Fetch(m.q), n - 1)) == m.reposted + [first] + Unread(Fetch(m.q),
        n - 1);
    case Posting(e) =>
      assert (m.reposted + [e]) + [] == m.reposted + [e];
    case Counting =>
      assert Unread(Decrement(m.q), n) == Unread(m.q, n);
    case Parking =>
      assert Unread(Park(m.q), n) == Unread(m.q, n);
  }

  lemma StepKeeps(m: Machine, s: Step)
    requires Inv(m)
    ensures Inv(Next(m, s))
    ensures m.accepted <= Next(m, s).accepted && m.reposted <= Next(m, s).reposted
  {
    match s
    case Interrupt(e) => InterruptKeeps(m, e);
    case Task => TaskKeeps(m);
  }

  function Run(m: Machine, steps: seq<Step>): Machine
    requires Inv(m)
    decreases |steps|
  {
    if steps == [] then m
    else
      StepKeeps(m, steps[0]);
      Run(Next(m, steps[0]), steps[1..])
  }

  // Whatever the interleaving, what the task has posted is what was accepted, in that order
  // and without repetition, up to the entries that are still under way.
  lemma {:induction false} RunKeeps(m: Machine, steps: seq<Step>)
    requires Inv(m)
    ensures var m' := Run(m, steps);
      Inv(m') && m.accepted <= m'.accepted && m.reposted <= m'.reposted <= m'.accepted
    decreases |steps|
  {
    if steps != [] {
      StepKeeps(m, steps[0]);
      RunKeeps(Next(m, steps[0]), steps[1..]);
    }
  }

  // A post is refused exactly when every slot is counted, and then at most one of them has
  // been read already.
  lemma RefusedWhenFull(m: Machine, e: Entry)
    requires Inv(m)
    ensures Next(m, Interrupt(e)).accepted == m.accepted <==> m.q.nbr == |m.q.slots|
    ensures m.q.nbr == |m.q.slots| ==> |m.accepted| - |m.reposted| - |InHand(m.pc)| >= |m.q.slots| - 1
  {
    assert |m.accepted + [e]| == |m.accepted| + 1;
  }

  // The posts of a run that are refused.
  ghost function Refusals(m: Machine, steps: seq<Step>): nat
    requires Inv(m)
    decreases |steps|
  {
    if steps == [] then 0
    else
      StepKeeps(m, steps[0]);
      (if steps[0].Interrupt? && m.q.nbr == |m.q.slots| then 1 else 0) + Refusals(Next(m, steps[0]), steps[1..])
  }

  // The most entries counted at any time during a run.
  ghost function MostCounted(m: Machine, steps: seq<Step>): (n: nat)
    requires Inv(m)
    ensures n >= m.q.nbr
    decreases |steps|
  {
    if steps == [] then m.q.nbr
    else
      StepKeeps(m, steps[0]);
      var later := MostCounted(Next(m, steps[0]), steps[1..]);
      if later > m.q.nbr then later else m.q.nbr
  }

  // OSIntQNbrEntriesMax is the most entries there ever were, and OSIntQOvfCtr counts the posts
  // refused in 16 bits.
  lemma {:induction false} CountersTell(m: Machine, steps: seq<Step>)
    requires Inv(m) && m.q.nbr <= m.q.peak && m.q.overflows < QTY_LIMIT
    ensures var q := Run(m, steps).q; var most := MostCounted(m, steps);
      && q.overflows == (m.q.overflows + Refusals(m, steps)) % QTY_LIMIT
      && q.peak == if most > m.q.peak then most else m.q.peak
    decreases |steps|
  {
    hide Inv, Next;
    if steps != [] {
      StepKeeps(m, steps[0]);
      StepCounts(m, steps[0]);
      CountersTell(Next(m, steps[0]), steps[1..]);
      CountOn(m.q.overflows, Refusals(Next(m, steps[0]), steps[1..]));
    }
  }

  lemma StepCounts(m: Machine, s: Step)
    requires Inv(m) && m.q.nbr <= m.q.peak && m.q.overflows < QTY_LIMIT
    ensures var q := Next(m, s).q;
      && q.overflows == (if s.Interrupt? && m.q.nbr == |m.q.slots| then (m.q.overflows + 1) % QTY_LIMIT
                         else m.q.overflows)
      && q.peak == if q.nbr > m.q.peak then q.nbr else m.q.peak
  {
    hide Unread;
  }

  lemma CountOn(a: nat, b: nat)
    requires a < QTY_LIMIT
    ensures ((a + 1) % QTY_LIMIT + b) % QTY_LIMIT == (a + 1 + b) % QTY_LIMIT
  {
  }

  // No entry waits in the ring while the task is off the ready list.
  ghost predicate NoneStranded(m: Machine) {
    m.q.ready || (m.q.nbr == 0 && m.pc == Testing)
  }

  // The test of the entry count at line 283 is not part of the critical section that follows,
  // so an interrupt may post in between.
  lemma StepStrands(m: Machine, s: Step)
    requires Inv(m) && NoneStranded(m)
    ensures NoneStranded(Next(m, s)) <==> !(s.Task? && m.pc.Parking? && m.q.nbr > 0)
  {
  }

  // An interrupt finds the task between the two.
  ghost predicate InWindow(m: Machine, s: Step) {
    s.Interrupt? && m.pc.Parking?
  }

  ghost predicate WindowFree(m: Machine, steps: seq<Step>)
    requires Inv(m)
    decreases |steps|
  {
    if steps == [] then true
    else
      StepKeeps(m, steps[0]);
      !InWindow(m, steps[0]) && WindowFree(Next(m, steps[0]), steps[1..])
  }

  lemma {:induction false} NeverStranded(m: Machine, steps: seq<Step>)
    requires Inv(m) && NoneStranded(m) && (m.pc.Parking? ==> m.q.nbr == 0) && WindowFree(m, steps)
    ensures NoneStranded(Run(m, steps))
    decreases |steps|
  {
    if steps != [] {
      StepKeeps(m, steps[0]);
      NeverStranded(Next(m, steps[0]), steps[1..]);
    }
  }

  lemma RunStep(m: Machine, s: Step, rest: seq<Step>)
    requires Inv(m)
    ensures Inv(Next(m, s)) && Run(m, [s] + rest) == Run(Next(m, s), rest)
  {
    StepKeeps(m, s);
    assert ([s] + rest)[1..] == rest;
  }

  // A run from the start that leaves an entry in the ring and the task off the ready list.
  lemma CanStrand(e: Entry, slots: seq<Entry>)
    requires |slots| >= 2
    ensures var m := Machine(Initial(slots), Testing, [], []);
      && Inv(m) && NoneStranded(m)
      && var m' := Run(m, [Task] + ([Interrupt(e)] + ([Task] + [])));
        m'.accepted == [e] && m'.reposted == [] && m'.q.nbr == 1 && !m'.q.ready
  {
    var m := Machine(Initial(slots), Testing, [], []);
    InitialInv(slots);
    RunStep(m, Task, [Interrupt(e)] + ([Task] + []));
    RunStep(OnTask(m), Interrupt(e), [Task] + []);
    RunStep(OnInterrupt(OnTask(m), e), Task, []);
  }

  // How many turns the task takes to empty the ring if no interrupt comes.
  function TurnsLeft(m: Machine): int {
    if !m.q.ready then 0
    else match m.pc
      case Testing => 4 * m.q.nbr + 2
      case Fetching => 4 * m.q.nbr + 1
      case Posting(_) => 4 * m.q.nbr
      case Counting => 4 * m.q.nbr - 1
      case Parking => 1
  }

  function Turns(m: Machine, n: nat): Machine
    requires Inv(m)
    decreases n
  {
    if n == 0 then m
    else
      StepKeeps(m, Task);
      Turns(OnTask(m), n - 1)
  }

  // Left alone, the task posts everything accepted and then goes to sleep, unless an
  // interrupt has just found it between the test and the critical section.
  lemma {:induction false} Drains(m: Machine)
    requires Inv(m) && m.q.ready
    ensures TurnsLeft(m) >= 0
    ensures var m' := Turns(m, TurnsLeft(m));
      && m'.accepted == m.accepted && !m'.q.ready
      && (m'.reposted == m.accepted <==> !(m.pc.Parking? && m.q.nbr > 0))
    decreases TurnsLeft(m)
  {
    StepKeeps(m, Task);
    var m' := OnTask(m);
    assert TurnsLeft(m') == TurnsLeft(m) - 1;
    if m'.q.ready {
      Drains(m');
    } else {
      assert |m.accepted| == |m.reposted| + m.q.nbr;
    }
  }

  // OS_INT_Q: one slot of the ring.
  class Slot {
    var next: Slot?
    var entry: Entry

    constructor (e: Entry) {
      next, entry := null, e;
    }
  }

  // The loop of OS_IntQTaskInit. The pointer of the last slot first leaves the array and is then
  // bent back.
  method LinkSlots(base: seq<Slot>)
    requires Distinct(base) && |base| >= 2
    modifies Elements(base)`next, Elements(base)`entry
    ensures forall k :: 0 <= k < |base| ==> base[k].entry == NOTHING && base[k].next == base[Wrap(k + 1, |base|)]
  {
    var p, pNext := 0, 1;
    for i := 0 to |base|
      invariant p == i && pNext == i + 1
      invariant forall k :: 0 <= k < i ==> base[k].entry == NOTHING
      invariant forall k :: 0 <= k < i && k + 1 < |base| ==> base[k].next == base[k+1]
    {
      base[p].entry := NOTHING;
      base[p].next := if pNext < |base| then base[pNext] else null;
      p := p + 1;
      pNext := pNext + 1;
    }
    p := p - 1;
    base[p].next := base[0];
  }

  // The variables OSIntQ... and the slots, linked in a circle.
  class IntQ {
    ghost var storage: seq<Slot>
    ghost var entries: seq<Entry>
    ghost var inIx: nat
    ghost var outIx: nat
    var inPtr: Slot?
    var outPtr: Slot?
    var size: nat
    var nbrEntries: nat
    var nbrMax: nat
    var ovfCtr: nat
    var rdy: bool

    constructor () {
      storage, entries, inIx, outIx, inPtr, outPtr, size, nbrEntries, nbrMax, ovfCtr, rdy := [], [], 0, 0, null, null,
        0, 0, 0, 0, false;
    }

    ghost predicate Circle()
      reads `storage, Elements(storage)`next
    {
      && Distinct(storage)
      && forall i :: 0 <= i < |storage| ==> storage[i].next == storage[Wrap(i + 1, |storage|)]
    }

    ghost predicate Holds()
      reads `storage, `entries, Elements(storage)`entry
    {
      |entries| == |storage| && forall i :: 0 <= i < |storage| ==>
        storage[i] in storage && storage[i].entry == entries[i]
    }

    ghost predicate Valid()
      reads this, Elements(storage)`next, Elements(storage)`entry
    {
      && size == |storage| == |entries| >= 2 && Circle() && Holds() && inIx < size && outIx < size && nbrEntries <= size
      && inPtr == storage[inIx] && outPtr == storage[outIx]
    }

    lemma NextOf(i: nat)
      requires Circle() && i < |storage|
      ensures storage[i].next == storage[Wrap(i + 1, |storage|)]
    {
    }

    // The meaning of the variables.
    ghost function View(): (q: Ring)
      requires Valid()
      reads this, Elements(storage)`next, Elements(storage)`entry
      ensures Proper(q)
    {
      Ring(entries, inIx, outIx, nbrEntries, nbrMax, ovfCtr, rdy)
    }

    // OS_IntQTaskInit: the ring, and the creation of the task, which makes it ready.
    method Init(base: seq<Slot>) returns (ok: bool)
      requires Distinct(base)
      modifies this, Elements(base)`next, Elements(base)`entry
      ensures ok == (|base| >= 2)
      ensures ok ==> Valid() && storage == base && View() == Initial(seq(|base|, _ => NOTHING))
    {
      ovfCtr := 0;
      if |base| < 2 {
        return false;
      }
      LinkSlots(base);
      Begin(base);
      ok := true;
    }

    method Begin(base: seq<Slot>)
      requires Distinct(base) && |base| >= 2 && ovfCtr == 0
      requires forall k :: 0 <= k < |base| ==> base[k].entry == NOTHING && base[k].next == base[Wrap(k + 1, |base|)]
      modifies this
      ensures Valid() && storage == base && View() == Initial(seq(|base|, _ => NOTHING))
    {
      inPtr, outPtr := base[0], base[0];
      nbrEntries, nbrMax, size, rdy := 0, 0, |base|, true;
      storage, entries, inIx, outIx := base, seq(|base|, _ => NOTHING), 0, 0;
    }

    // OS_IntQPost.
    method PostFromIsr(e: Entry) returns (ok: bool)
      requires Valid()
      modifies `entries, `inPtr, `inIx, `nbrEntries, `nbrMax, `ovfCtr, `rdy, Elements(storage)`entry
      ensures Valid() && storage == old(storage)
      ensures View() == Post(old(View()), e) && ok == (old(nbrEntries) < size)
    {
      hide Circle, Holds;
      if nbrEntries < size {
        nbrEntries := nbrEntries + 1;
        if nbrMax < nbrEntries {
          nbrMax := nbrEntries;
        }
        Store(e);
        rdy := true;
        ok := true;
      } else {
        ovfCtr := (ovfCtr + 1) % QTY_LIMIT;
        ok := false;
      }
    }

    method Store(e: Entry)
      requires Valid()
      modifies `entries, `inPtr, `inIx, Elements(storage)`entry
      ensures Valid() && inIx == Wrap(old(inIx) + 1, size) && entries == old(entries)[old(inIx) := e]
    {
      NextOf(inIx);
      assert inPtr in storage;
      inPtr.entry := e;
      inPtr := inPtr.next;
      entries := entries[inIx := e];
      inIx := Wrap(inIx + 1, size);
    }

    // The critical section of OS_IntQRePost.
    method FetchEntry() returns (e: Entry)
      requires Valid()
      modifies `outPtr, `outIx
      ensures Valid() && storage == old(storage)
      ensures e == old(View()).slots[old(outIx)] && View() == Fetch(old(View()))
    {
      e := outPtr.entry;
      outPtr := outPtr.next;
      outIx := Wrap(outIx + 1, size);
    }

    // The count-down of OS_IntQTask, m being the machine it is a turn of: the count is that of
    // the posts not yet made again.
    method CountDown(ghost m: Machine)
      requires Valid() && Inv(m) && m.q == View() && m.q.ready && m.pc.Counting?
      modifies `nbrEntries
      ensures Valid() && storage == old(storage) && View() == OnTask(m).q && Inv(OnTask(m))
      ensures nbrEntries == |m.accepted| - |m.reposted|
    {
      hide Circle, Holds;
      TaskKeeps(m);
      assert |m.accepted| == |m.reposted| + UnreadCount(m);
      nbrEntries := nbrEntries - 1;
    }

    // The critical section in which OS_IntQTask takes itself off the ready list: nothing is left
    // behind if and only if nothing was accepted since the test.
    method LeaveReadyList(ghost m: Machine)
      requires Valid() && Inv(m) && m.q == View() && m.q.ready && m.pc.Parking?
      modifies `rdy
      ensures Valid() && storage == old(storage) && View() == OnTask(m).q && Inv(OnTask(m))
      ensures NoneStranded(OnTask(m)) <==> m.reposted == m.accepted
    {
      hide Circle, Holds;
      TaskKeeps(m);
      assert |m.accepted| == |m.reposted| + UnreadCount(m);
      rdy := false;
    }
  }
}
