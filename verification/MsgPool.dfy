// The pool of OS_MSG blocks and the message queues built out of it, as linked blocks that are
// handed from one list to the other in place (os_msg.c).

module MsgPool {
  import opened Lists

  type Payload = (int, nat)

  const QTY_LIMIT := 0x1_0000

  class Msg {
    var next: Msg?
    var ptr: int
    var size: nat
  }

  // Each block but the last points to the one behind it.
  ghost predicate Chain(l: seq<Msg>)
    reads Elements(l)`next
  {
    Distinct(l) && forall i :: 0 <= i < |l| - 1 ==> l[i] in l && l[i].next == l[i+1]
  }

  ghost predicate Holds(l: seq<Msg>, msgs: seq<Payload>)
    reads Elements(l)`ptr, Elements(l)`size
  {
    |msgs| == |l| && forall i :: 0 <= i < |l| ==> l[i] in l && (l[i].ptr, l[i].size) == msgs[i]
  }

  // A new entry at the end of the queue, or with LIFO at its front.
  function Joined<T>(l: seq<T>, x: T, lifo: bool): seq<T> {
    if lifo then [x] + l else l + [x]
  }

  // OS_MSG_Q: a chain of nbrEntries blocks from outPtr to inPtr. Nothing is said about where
  // the last of them points.
  class MsgQ {
    var inPtr: Msg?
    var outPtr: Msg?
    var nbrEntries: nat
    var nbrEntriesSize: nat
    var nbrEntriesMax: nat
    ghost var l: seq<Msg>
    ghost var msgs: seq<Payload>

    // OS_MsgQInit.
    constructor (size: nat)
      ensures Valid() && l == [] && msgs == [] && nbrEntriesSize == size
    {
      inPtr, outPtr, nbrEntries, nbrEntriesSize, nbrEntriesMax, l, msgs := null, null, 0, size, 0, [], [];
    }

    ghost predicate Valid()
      reads `inPtr, `outPtr, `nbrEntries, `nbrEntriesSize, `l, `msgs, Elements(l)`next, Elements(l)`ptr,
        Elements(l)`size
    {
      && nbrEntries == |l| <= nbrEntriesSize && Holds(l, msgs) && Chain(l)
      && (l != [] ==> outPtr == l[0] && inPtr == l[|l|-1])
    }

    // A queue none of whose blocks is written stays as it is.
    twostate lemma Undisturbed()
      requires old(Valid()) && unchanged(this)
      requires forall m | m in l :: m.next == old(m.next) && m.ptr == old(m.ptr) && m.size == old(m.size)
      ensures Valid()
    {
      assert forall i :: 0 <= i < |l| ==> l[i] in l;
    }

    // The second half of OS_MsgQPut, once a block has been found. The first message keeps the
    // next pointer its block had in the pool.
    method Append(m: Msg, v: Payload, lifo: bool)
      requires Valid() && m !in l && nbrEntries < nbrEntriesSize
      modifies `inPtr, `outPtr, `nbrEntries, `nbrEntriesMax, `l, `msgs, m`next, m`ptr, m`size, Elements(l)`next
      ensures Valid() && nbrEntriesSize == old(nbrEntriesSize)
      ensures l == Joined(old(l), m, lifo) && msgs == Joined(old(msgs), v, lifo)
      ensures nbrEntriesMax == if |msgs| > old(nbrEntriesMax) then |msgs| else old(nbrEntriesMax)
      ensures old(l) == [] ==> m.next == old(m.next)
    {
      AppendAs(m, v, lifo, Joined(l, m, lifo), Joined(msgs, v, lifo));
    }

    method AppendAs(m: Msg, v: Payload, lifo: bool, ghost l': seq<Msg>, ghost msgs': seq<Payload>)
      requires Valid() && m !in l && nbrEntries < nbrEntriesSize
      requires l' == Joined(l, m, lifo) && msgs' == Joined(msgs, v, lifo)
      modifies `inPtr, `outPtr, `nbrEntries, `nbrEntriesMax, `l, `msgs, m`next, m`ptr, m`size, Elements(l)`next
      ensures Valid() && l == l' && msgs == msgs'
      ensures nbrEntriesMax == if |msgs| > old(nbrEntriesMax) then |msgs| else old(nbrEntriesMax)
      ensures old(l) == [] ==> m.next == old(m.next)
    {
      hide Chain;
      Deposit(m, v, lifo);
      Link(m, lifo);
      nbrEntriesMax := if nbrEntries > nbrEntriesMax then nbrEntries else nbrEntriesMax;
      l, msgs := l', msgs';
    }

    method Deposit(m: Msg, v: Payload, ghost lifo: bool)
      requires Valid() && m !in l
      modifies m`ptr, m`size
      ensures Valid() && Holds(Joined(l, m, lifo), Joined(msgs, v, lifo))
    {
      m.ptr, m.size := v.0, v.1;
      assert Holds(l, msgs);
      HoldsJoined(l, msgs, m, v, lifo);
    }

    method Link(m: Msg, lifo: bool)
      requires Valid() && m !in l
      modifies `inPtr, `outPtr, `nbrEntries, m`next, Elements(l)`next
      ensures var l' := Joined(l, m, lifo);
        nbrEntries == |l'| && outPtr == l'[0] && inPtr == l'[|l'|-1] && Chain(l')
      ensures l == [] ==> m.next == old(m.next)
    {
      if nbrEntries == 0 {
        assert l == [] && Joined(l, m, lifo) == [m];
        inPtr := m;
        outPtr := m;
        nbrEntries := 1;
      } else if !lifo {
        LinkFifo(m);
      } else {
        LinkLifo(m);
      }
    }

    method LinkFifo(m: Msg)
      requires Valid() && m !in l && l != []
      modifies `inPtr, `nbrEntries, m`next, {l[|l|-1]}`next
      ensures nbrEntries == |l| + 1 && inPtr == m && Chain(l + [m])
    {
      var last := inPtr;
      last.next := m;
      m.next := null;
      inPtr := m;
      nbrEntries := nbrEntries + 1;
    }

    method LinkLifo(m: Msg)
      requires Valid() && m !in l && l != []
      modifies `outPtr, `nbrEntries, m`next
      ensures nbrEntries == |l| + 1 && outPtr == m && Chain([m] + l)
    {
      m.next := outPtr;
      outPtr := m;
      nbrEntries := nbrEntries + 1;
    }

    // The first half of OS_MsgQGet. With one entry the next pointer may be anything.
    method Take() returns (m: Msg, v: Payload)
      requires Valid() && nbrEntries > 0
      modifies `inPtr, `outPtr, `nbrEntries, `l, `msgs
      ensures Valid() && nbrEntriesSize == old(nbrEntriesSize)
      ensures m == old(l)[0] && v == old(msgs)[0] && l == old(l)[1..] && msgs == old(msgs)[1..]
    {
      m := outPtr;
      v := (m.ptr, m.size);
      assert |l| > 1 ==> l[0].next == l[1];
      outPtr := m.next;
      if outPtr == null {
        inPtr := null;
        nbrEntries := 0;
      } else {
        nbrEntries := nbrEntries - 1;
      }
      ghost var l0 := l;
      l, msgs := l[1..], msgs[1..];
      assert forall i :: 0 <= i < |l| ==> l[i] == l0[i+1];
    }
  }

  lemma HoldsJoined(l: seq<Msg>, msgs: seq<Payload>, m: Msg, v: Payload, lifo: bool)
    requires Holds(l, msgs) && (m.ptr, m.size) == v
    ensures Holds(Joined(l, m, lifo), Joined(msgs, v, lifo)) && |Joined(l, m, lifo)| == |l| + 1
  {
  }

  function Sum(n: seq<nat>): nat {
    if n == [] then 0 else n[0] + Sum(n[1..])
  }

  lemma {:induction false} SumUpdate(n: seq<nat>, i: nat, v: nat)
    requires i < |n|
    ensures Sum(n[i := v]) == Sum(n) - n[i] + v
  {
    if i > 0 {
      assert n[i := v][1..] == n[1..][i - 1 := v];
      SumUpdate(n[1..], i - 1, v);
    } else {
      assert n[0 := v][1..] == n[1..];
    }
  }

  // The blocks of the free list: each points to the next one, the last to nothing.
  ghost predicate FreeAt(free: seq<Msg>, i: nat)
    requires i < |free|
    reads Elements(free)`next
  {
    free[i].next == if i + 1 < |free| then free[i+1] else null
  }

  ghost predicate FreeChain(head: Msg?, free: seq<Msg>)
    reads Elements(free)`next
  {
    head == (if free == [] then null else free[0]) && Distinct(free) && forall i :: 0 <= i < |free| ==> FreeAt(free, i)
  }

  // owner tells where each block is: 0 on the free list, i + 1 on list i.
  ghost predicate Placed(owner: map<Msg, nat>, free: seq<Msg>, lists: seq<seq<Msg>>, m: Msg)
    requires m in owner
  {
    if owner[m] == 0 then m in free else owner[m] - 1 < |lists| && m in lists[owner[m] - 1]
  }

  ghost predicate Partition(owner: map<Msg, nat>, free: seq<Msg>, lists: seq<seq<Msg>>) {
    && (forall m | m in free :: m in owner && owner[m] == 0)
    && (forall i, m | 0 <= i < |lists| && m in lists[i] :: m in owner && owner[m] == i + 1)
    && (forall m | m in owner :: Placed(owner, free, lists, m))
  }

  lemma Separate(owner: map<Msg, nat>, free: seq<Msg>, lists: seq<seq<Msg>>, i: nat)
    requires Partition(owner, free, lists) && i < |lists|
    ensures forall x | x in free :: x !in lists[i] && x in owner
    ensures forall j, x | 0 <= j < |lists| && j != i && x in lists[j] :: x !in lists[i]
  {
    assert forall x | x in lists[i] :: x in owner && owner[x] == i + 1;
    forall j, x | 0 <= j < |lists| && j != i && x in lists[j]
      ensures x !in lists[i]
    {
      assert x in owner && owner[x] == j + 1;
    }
  }

  // The first free block goes to list i.
  lemma BlockUsed(owner: map<Msg, nat>, free: seq<Msg>, lists: seq<seq<Msg>>, i: nat, lifo: bool)
    requires Partition(owner, free, lists) && free != [] && Distinct(free) && i < |lists|
    ensures Partition(owner[free[0] := i + 1], free[1..], lists[i := Joined(lists[i], free[0], lifo)])
  {
    var m, owner', lists' := free[0], owner[free[0] := i + 1], lists[i := Joined(lists[i], free[0], lifo)];
    JoinedMembers(lists[i], m, lifo);
    assert m in free;
    assert forall x | x in free[1..] :: x in free && x != m && x in owner' && owner'[x] == 0;
    forall j, x | 0 <= j < |lists'| && x in lists'[j]
      ensures x in owner' && owner'[x] == j + 1
    {
      assert x == m || x in lists[j];
    }
    forall x | x in owner'
      ensures Placed(owner', free[1..], lists', x)
    {
      if x != m {
        assert Placed(owner, free, lists, x);
        assert x in free ==> x in free[1..];
      }
    }
    assert Partition(owner', free[1..], lists');
  }

  lemma JoinedMembers<T>(l: seq<T>, x: T, lifo: bool)
    ensures forall y | y in Joined(l, x, lifo) :: y in l || y == x
    ensures x in Joined(l, x, lifo) && forall y | y in l :: y in Joined(l, x, lifo)
  {
    var r := Joined(l, x, lifo);
    assert r[if lifo then 0 else |l|] == x;
    forall y | y in l
      ensures y in r
    {
      var j :| 0 <= j < |l| && l[j] == y;
      assert r[if lifo then j + 1 else j] == y;
    }
  }

  // The first block of list i becomes the first free one.
  lemma BlockFreed(owner: map<Msg, nat>, free: seq<Msg>, lists: seq<seq<Msg>>, i: nat)
    requires Partition(owner, free, lists) && i < |lists| && lists[i] != [] && Distinct(lists[i])
    ensures var m := lists[i][0]; Partition(owner[m := 0], [m] + free, lists[i := lists[i][1..]])
  {
    var m := lists[i][0];
    var owner', lists' := owner[m := 0], lists[i := lists[i][1..]];
    assert m in lists[i] && m !in lists[i][1..];
    assert ([m] + free)[0] == m;
    forall j, x | 0 <= j < |lists'| && x in lists'[j]
      ensures x in owner' && owner'[x] == j + 1
    {
      assert x in lists[j] && owner[x] == j + 1 && x != m;
    }
    forall x | x in owner'
      ensures Placed(owner', [m] + free, lists', x)
    {
      if x != m { assert Placed(owner, free, lists, x); }
    }
  }

  // What the books say once the first free block is meant for list i.
  lemma BookUsed(owner: map<Msg, nat>, free: seq<Msg>, lists: seq<seq<Msg>>, i: nat, lifo: bool)
    requires Partition(owner, free, lists) && free != [] && Distinct(free) && i < |lists|
    ensures var m := free[0]; var lists' := lists[i := Joined(lists[i], m, lifo)];
      && m in owner && Partition(owner - {m}, free[1..], lists) && Partition(owner[m := i + 1], free[1..], lists')
      && Sum(Lengths(lists')) == Sum(Lengths(lists)) + 1
      && |owner[m := i + 1]| == |owner| && owner[m := i + 1].Keys == owner.Keys
  {
    BlockUsed(owner, free, lists, i, lifo);
    FirstLeaves(owner, free, lists);
    LengthUpdate(lists, i, Joined(lists[i], free[0], lifo));
  }

  // All blocks of list i become free, in front of the others.
  ghost function AllFree(owner: map<Msg, nat>, i: nat): (r: map<Msg, nat>)
    ensures r.Keys == owner.Keys
  {
    map m | m in owner :: if owner[m] == i + 1 then 0 else owner[m]
  }

  lemma ListFreed(owner: map<Msg, nat>, free: seq<Msg>, lists: seq<seq<Msg>>, i: nat)
    requires Partition(owner, free, lists) && i < |lists|
    ensures Partition(AllFree(owner, i), lists[i] + free, lists[i := []])
  {
    var owner', lists' := AllFree(owner, i), lists[i := []];
    forall j, x | 0 <= j < |lists'| && x in lists'[j]
      ensures x in owner' && owner'[x] == j + 1
    {
      assert x in lists[j];
    }
    forall x | x in owner'
      ensures Placed(owner', lists[i] + free, lists', x)
    {
      assert Placed(owner, free, lists, x);
    }
  }

  // New blocks join the free list.
  ghost function WithFree(owner: map<Msg, nat>, added: seq<Msg>): (r: map<Msg, nat>)
    ensures r.Keys == owner.Keys + Elements(added)
  {
    owner + (map m | m in added :: 0)
  }

  lemma BlocksAdded(owner: map<Msg, nat>, free: seq<Msg>, lists: seq<seq<Msg>>, added: seq<Msg>)
    requires Partition(owner, free, lists) && forall m | m in added :: m !in owner
    ensures Partition(WithFree(owner, added), added + free, lists)
  {
    var owner' := WithFree(owner, added);
    forall j, x | 0 <= j < |lists| && x in lists[j]
      ensures x in owner' && owner'[x] == j + 1
    {
      assert x in owner && x !in added;
    }
    forall x | x in owner'
      ensures Placed(owner', added + free, lists, x)
    {
      if x in owner { assert Placed(owner, free, lists, x); }
    }
  }

  ghost function Lengths(lists: seq<seq<Msg>>): (n: seq<nat>)
    ensures |n| == |lists| && forall i :: 0 <= i < |n| ==> n[i] == |lists[i]|
  {
    seq(|lists|, i requires 0 <= i < |lists| => |lists[i]|)
  }

  lemma LengthUpdate(lists: seq<seq<Msg>>, i: nat, l: seq<Msg>)
    requires i < |lists|
    ensures Sum(Lengths(lists[i := l])) == Sum(Lengths(lists)) - |lists[i]| + |l|
  {
    assert Lengths(lists[i := l]) == Lengths(lists)[i := |l|];
    SumUpdate(Lengths(lists), i, |l|);
  }

  // OSMsgPool and the queues that use it; lists[i] are the blocks of queue i.
  class MsgPool {
    var nextPtr: Msg?
    var nbrFree: nat
    var nbrUsed: nat
    ghost var free: seq<Msg>
    ghost var queues: seq<MsgQ>
    ghost var members: set<MsgQ>
    ghost var lists: seq<seq<Msg>>
    ghost var owner: map<Msg, nat>
    ghost var blocks: set<Msg>

    constructor ()
      ensures Valid() && owner == map[] && blocks == {} && free == [] && nbrFree == 0 && queues == []
    {
      nextPtr, nbrFree, nbrUsed, free, queues, members, lists, owner, blocks := null, 0, 0, [], [], {}, [], map[], {};
    }

    ghost predicate QueueAt(i: nat)
      requires i < |queues| == |lists|
      reads `queues, `lists, `blocks, {queues[i]}`inPtr, {queues[i]}`outPtr, {queues[i]}`nbrEntries
      reads {queues[i]}`nbrEntriesSize, {queues[i]}`l, {queues[i]}`msgs, blocks`next, blocks`ptr, blocks`size
    {
      queues[i].l == lists[i] && Elements(lists[i]) <= blocks && queues[i].Valid()
    }

    ghost predicate QueuesOk()
      reads `queues, `members, `lists, `blocks, members`inPtr, members`outPtr, members`nbrEntries
      reads members`nbrEntriesSize, members`l, members`msgs, blocks`next, blocks`ptr, blocks`size
    {
      |lists| == |queues| && Distinct(queues) && forall i :: 0 <= i < |queues| ==> queues[i] in members && QueueAt(i)
    }

    // The books for queues with the blocks in lists' and a free list free', on which n blocks are
    // not yet counted.
    ghost predicate Due(lists': seq<seq<Msg>>, free': seq<Msg>, owner': map<Msg, nat>, n: nat)
      reads `nbrFree, `nbrUsed, `blocks
    {
      && blocks == owner'.Keys && Partition(owner', free', lists')
      && nbrFree + n == |free'| && nbrUsed - n == Sum(Lengths(lists')) && nbrFree + nbrUsed == |owner'| < QTY_LIMIT
    }

    ghost predicate Settled(lists': seq<seq<Msg>>)
      reads `nextPtr, `nbrFree, `nbrUsed, `free, `owner, `blocks, Elements(free)`next
    {
      FreeChain(nextPtr, free) && Due(lists', free, owner, 0)
    }

    // Every block is on the free list or on exactly one queue, and the counters say how many
    // are where.
    ghost predicate Valid()
      reads this, members, blocks, Elements(free)`next
    {
      QueuesOk() && Settled(lists)
    }

    // Unlinking the first free block.
    method Alloc() returns (m: Msg)
      requires FreeChain(nextPtr, free) && nbrFree == |free| > 0
      modifies `nextPtr, `nbrFree, `free
      ensures m == old(free)[0] && free == old(free)[1..] && nbrFree == |free| && FreeChain(nextPtr, free)
      ensures m !in free && m.next == nextPtr
    {
      ghost var free0 := free;
      assert FreeAt(free, 0);
      m := nextPtr;
      nextPtr := m.next;
      nbrFree := nbrFree - 1;
      free := free[1..];
      forall i | 0 <= i < |free|
        ensures FreeAt(free, i)
      {
        assert old(FreeAt(free0, i + 1));
      }
    }

    // A block on no list joins queue i.
    method Deliver(ghost i: nat, q: MsgQ, m: Msg, v: Payload, lifo: bool)
      requires QueuesOk() && i < |queues| && queues[i] == q && q.nbrEntries < q.nbrEntriesSize
      requires m in blocks && m !in lists[i]
      modifies q`inPtr, q`outPtr, q`nbrEntries, q`nbrEntriesMax, q`l, q`msgs, `lists, blocks`next, blocks`ptr,
        blocks`size
      ensures |lists| == |queues| && QueueAt(i) && lists == old(lists)[i := Joined(old(lists)[i], m, lifo)]
      ensures q.msgs == Joined(old(q.msgs), v, lifo) && q.nbrEntriesSize == old(q.nbrEntriesSize)
      ensures q.nbrEntriesMax == if |q.msgs| > old(q.nbrEntriesMax) then |q.msgs| else old(q.nbrEntriesMax)
      ensures old(lists)[i] == [] ==> m.next == old(m.next) && q.inPtr == m
      ensures forall x | x in blocks && x != m && x !in old(lists)[i] ::
        x.next == old(x.next) && x.ptr == old(x.ptr) && x.size == old(x.size)
    {
      assert QueueAt(i);
      q.Append(m, v, lifo);
      lists := lists[i := Joined(lists[i], m, lifo)];
    }

    // And nothing else moves.
    method Join(ghost i: nat, q: MsgQ, m: Msg, v: Payload, lifo: bool, ghost others: map<Msg, nat>)
      requires QueuesOk() && FreeChain(nextPtr, free) && i < |queues| && queues[i] == q
        && q.nbrEntries < q.nbrEntriesSize
      requires m in blocks && m !in others && Partition(others, free, lists) && others.Keys <= blocks
      modifies q`inPtr, q`outPtr, q`nbrEntries, q`nbrEntriesMax, q`l, q`msgs, `lists, blocks`next, blocks`ptr,
        blocks`size
      ensures QueuesOk() && FreeChain(nextPtr, free) && lists == old(lists)[i := Joined(old(lists)[i], m, lifo)]
      ensures q.msgs == Joined(old(q.msgs), v, lifo) && q.nbrEntriesSize == old(q.nbrEntriesSize)
      ensures q.nbrEntriesMax == if |q.msgs| > old(q.nbrEntriesMax) then |q.msgs| else old(q.nbrEntriesMax)
      ensures forall j :: 0 <= j < |queues| && j != i ==> queues[j].msgs == old(queues[j].msgs)
      ensures old(lists)[i] == [] ==> m.next == old(m.next) && q.inPtr == m
    {
      Separate(others, free, lists, i);
      assert forall j | 0 <= j < |lists| :: m !in lists[j];
      hide Partition, MsgQ.Valid, Joined;
      Deliver(i, q, m, v, lifo);
      forall k | 0 <= k < |free|
        ensures FreeAt(free, k)
      {
        assert old(FreeAt(free, k)) && free[k] in free;
      }
      forall j | 0 <= j < |queues| && j != i
        ensures QueueAt(j) && queues[j].msgs == old(queues[j].msgs)
      {
        assert old(QueueAt(j)) && queues[j] != q;
        queues[j].Undisturbed();
      }
    }

    // OS_MsgQPut: a full queue and an empty pool refuse.
    method Put(q: MsgQ, v: Payload, lifo: bool) returns (ok: bool)
      requires Valid() && q in queues
      modifies this, q`inPtr, q`outPtr, q`nbrEntries, q`nbrEntriesMax, q`l, q`msgs, blocks`next, blocks`ptr, blocks`size
      ensures Valid() && queues == old(queues) && blocks == old(blocks)
      ensures ok == (old(|q.msgs|) < old(q.nbrEntriesSize) && old(nbrFree) > 0)
      ensures q.msgs ==
        (if !ok then old(q.msgs) else if lifo then [v] + old(q.msgs) else old(q.msgs) + [v])
      ensures q.nbrEntriesSize == old(q.nbrEntriesSize)
        && q.nbrEntriesMax == if ok && |q.msgs| > old(q.nbrEntriesMax) then |q.msgs| else old(q.nbrEntriesMax)
      ensures forall x | x in queues && x != q :: x.msgs == old(x.msgs)
      ensures nbrUsed == old(nbrUsed) + if ok then 1 else 0
      ensures if ok then old(free) != [] && free == old(free)[1..] else free == old(free)
      ensures ok && |q.msgs| == 1 ==> q.inPtr != null && q.inPtr.next == nextPtr
    {
      hide Settled;
      ghost var i :| 0 <= i < |queues| && queues[i] == q;
      assert QueueAt(i);
      if q.nbrEntries >= q.nbrEntriesSize {
        return false;
      }
      if nbrFree == 0 {
        return false;
      }
      ok := true;
      assert q.msgs == [] ==> lists[i] == [];
      Use(i, q, v, lifo);
      assert forall x | x in queues && x != q :: x.msgs == old(x.msgs);
    }

    method TakeBlock(ghost i: nat, lifo: bool) returns (m: Msg, ghost others: map<Msg, nat>)
      requires Settled(lists) && i < |lists| && nbrFree > 0
      modifies `nextPtr, `nbrFree, `nbrUsed, `free, `owner
      ensures m in blocks && m !in others && Partition(others, free, lists) && others.Keys <= blocks
      ensures Settled(lists[i := Joined(lists[i], m, lifo)]) && m.next == nextPtr && nbrUsed == old(nbrUsed) + 1
      ensures old(free) != [] && free == old(free)[1..]
      ensures FreeChain(nextPtr, free)
    {
      hide Partition, Lengths, Sum, FreeAt;
      BookUsed(owner, free, lists, i, lifo);
      others := owner - {free[0]};
      m := Alloc();
      nbrUsed := nbrUsed + 1;
      owner := owner[m := i + 1];
    }

    method Use(ghost i: nat, q: MsgQ, v: Payload, lifo: bool)
      requires Valid() && i < |queues| && queues[i] == q && q.nbrEntries < q.nbrEntriesSize && nbrFree > 0
      modifies this, q`inPtr, q`outPtr, q`nbrEntries, q`nbrEntriesMax, q`l, q`msgs, blocks`next, blocks`ptr, blocks`size
      ensures Valid() && queues == old(queues) && blocks == old(blocks)
      ensures q.msgs == Joined(old(q.msgs), v, lifo) && q.nbrEntriesSize == old(q.nbrEntriesSize)
      ensures q.nbrEntriesMax == if |q.msgs| > old(q.nbrEntriesMax) then |q.msgs| else old(q.nbrEntriesMax)
      ensures forall j :: 0 <= j < |queues| && j != i ==> queues[j].msgs == old(queues[j].msgs)
      ensures nbrUsed == old(nbrUsed) + 1 && old(free) != [] && free == old(free)[1..]
      ensures old(lists)[i] == [] ==> q.inPtr != null && q.inPtr.next == nextPtr
    {
      hide Partition, Lengths, Sum, Joined, QueueAt, FreeAt, Distinct;
      var m, others := TakeBlock(i, lifo);
      Join(i, q, m, v, lifo, others);
    }

    // OS_MsgQGet: the block goes back to the front of the pool.
    method Get(q: MsgQ) returns (ok: bool, v: Payload)
      requires Valid() && q in queues
      modifies this, q`inPtr, q`outPtr, q`nbrEntries, q`l, q`msgs, blocks`next, blocks`ptr, blocks`size
      ensures Valid() && queues == old(queues) && blocks == old(blocks)
      ensures ok == (old(q.msgs) != []) && q.nbrEntriesSize == old(q.nbrEntriesSize)
      ensures if ok then v == old(q.msgs)[0] && q.msgs == old(q.msgs)[1..] else q.msgs == old(q.msgs)
      ensures forall x | x in queues && x != q :: x.msgs == old(x.msgs)
      ensures nbrUsed == old(nbrUsed) - if ok then 1 else 0
      ensures if ok then old(q.l) != [] && free == [old(q.l)[0]] + old(free) else free == old(free)
    {
      hide Settled;
      ghost var i :| 0 <= i < |queues| && queues[i] == q;
      assert QueueAt(i);
      v := (0, 0);
      ok := q.nbrEntries > 0;
      if ok {
        v := Unuse(i, q);
      }
      assert forall x | x in queues && x != q :: x.msgs == old(x.msgs);
    }

    method Unuse(ghost i: nat, q: MsgQ) returns (v: Payload)
      requires Valid() && i < |queues| && queues[i] == q && q.msgs != []
      modifies this, q`inPtr, q`outPtr, q`nbrEntries, q`l, q`msgs, blocks`next, blocks`ptr, blocks`size
      ensures Valid() && queues == old(queues) && blocks == old(blocks)
      ensures v == old(q.msgs)[0] && q.msgs == old(q.msgs)[1..] && q.nbrEntriesSize == old(q.nbrEntriesSize)
      ensures forall j :: 0 <= j < |queues| && j != i ==> queues[j].msgs == old(queues[j].msgs)
      ensures nbrUsed == old(nbrUsed) - 1 && old(lists)[i] != [] && free == [old(lists)[i][0]] + old(free)
    {
      LeavesBooks(i);
      ghost var owner' := owner[lists[i][0] := 0];
      assert Elements(free) <= blocks;
      hide MsgQ.Valid, Partition, Lengths, Sum, Settled;
      var m;
      m, v := Leave(i, q);
      Restore(m, owner');
    }

    method Credit(n: nat, ghost owner': map<Msg, nat>)
      requires QueuesOk() && FreeChain(nextPtr, free) && Due(lists, free, owner', n)
      modifies `nbrFree, `nbrUsed, `owner
      ensures Valid() && nbrFree == old(nbrFree) + n && nbrUsed == old(nbrUsed) - n
    {
      hide Partition, Lengths, Sum, QueueAt, FreeAt;
      nbrUsed := nbrUsed - n;
      nbrFree := nbrFree + n;
      owner := owner';
    }

    // The books for a block m that has left its queue and is not yet on the free list.
    ghost predicate Loose(lists': seq<seq<Msg>>, m: Msg, owner': map<Msg, nat>)
      reads `nextPtr, `nbrFree, `nbrUsed, `free, `blocks, Elements(free)`next
    {
      && FreeChain(nextPtr, free) && m !in free && m in blocks
      && (forall j :: 0 <= j < |lists'| ==> m !in lists'[j]) && Due(lists', [m] + free, owner', 1)
    }

    lemma LeavesBooks(i: nat)
      requires Valid() && i < |queues| && queues[i].msgs != []
      ensures lists[i] != [] && Loose(lists[i := lists[i][1..]], lists[i][0], owner[lists[i][0] := 0])
    {
      assert QueueAt(i);
      assert Distinct(lists[i]) && lists[i][0] in lists[i];
      hide MsgQ.Valid, QueueAt;
      BookFreed(owner, free, lists, i);
    }

    // The second half of OS_MsgQGet: a block that has just left a queue is free again.
    method Restore(m: Msg, ghost owner': map<Msg, nat>)
      requires QueuesOk() && Loose(lists, m, owner')
      modifies `nextPtr, `nbrFree, `nbrUsed, `free, `owner, m`next
      ensures QueuesOk() && Settled(lists) && nbrUsed == old(nbrUsed) - 1 && free == [m] + old(free)
      ensures forall j :: 0 <= j < |queues| ==> queues[j].msgs == old(queues[j].msgs)
    {
      hide Partition, Lengths, Sum, QueueAt, FreeAt;
      GiveBack(m);
      Credit(1, owner');
    }

    // The first block leaves queue i; no block is written.
    method Leave(ghost i: nat, q: MsgQ) returns (m: Msg, v: Payload)
      requires QueuesOk() && i < |queues| && queues[i] == q && q.msgs != [] && lists[i] != []
      modifies q`inPtr, q`outPtr, q`nbrEntries, q`l, q`msgs, `lists
      ensures QueuesOk() && m == old(lists)[i][0] && lists == old(lists)[i := old(lists)[i][1..]]
      ensures v == old(q.msgs)[0] && q.msgs == old(q.msgs)[1..] && q.nbrEntriesSize == old(q.nbrEntriesSize)
      ensures forall j :: 0 <= j < |queues| && j != i ==> queues[j].msgs == old(queues[j].msgs)
    {
      assert QueueAt(i);
      m, v := q.Take();
      lists := lists[i := lists[i][1..]];
      forall j | 0 <= j < |queues| && j != i
        ensures QueueAt(j) && queues[j].msgs == old(queues[j].msgs)
      {
        assert old(QueueAt(j)) && queues[j] != q;
      }
    }

    // A block that is on no queue goes to the front of the free list.
    method GiveBack(m: Msg)
      requires QueuesOk() && FreeChain(nextPtr, free) && m !in free && m in blocks
      requires forall j :: 0 <= j < |lists| ==> m !in lists[j]
      modifies `nextPtr, `free, m`next
      ensures QueuesOk() && FreeChain(nextPtr, free) && free == [m] + old(free)
      ensures forall j :: 0 <= j < |queues| ==> queues[j].msgs == old(queues[j].msgs)
    {
      ghost var free0 := free;
      m.next := nextPtr;
      nextPtr := m;
      free := [m] + free;
      forall k | 0 <= k < |free|
        ensures FreeAt(free, k)
      {
        if k > 0 { assert old(FreeAt(free0, k - 1)) && free[k] == free0[k-1] && free0[k-1] in free0; }
      }
      hide MsgQ.Valid;
      forall j | 0 <= j < |queues|
        ensures QueueAt(j)
      {
        assert old(QueueAt(j));
        queues[j].Undisturbed();
      }
    }

    // OS_MsgQFreeAll: the whole chain goes in front of the free list by two pointer writes.
    method FreeAll(q: MsgQ) returns (qty: nat)
      requires Valid() && q in queues
      modifies this, q`inPtr, q`outPtr, q`nbrEntries, q`nbrEntriesMax, q`l, q`msgs, blocks`next
      ensures Valid() && queues == old(queues) && blocks == old(blocks)
      ensures qty == old(|q.msgs|) && q.msgs == [] && q.nbrEntriesSize == old(q.nbrEntriesSize)
        && q.nbrEntriesMax == if qty > 0 then 0 else old(q.nbrEntriesMax)
      ensures free == old(q.l) + old(free)
      ensures forall x | x in queues && x != q :: x.msgs == old(x.msgs)
      ensures nbrFree == old(nbrFree) + qty && nbrUsed == old(nbrUsed) - qty
    {
      hide Settled;
      ghost var i :| 0 <= i < |queues| && queues[i] == q;
      assert QueueAt(i);
      qty := q.nbrEntries;
      if q.nbrEntries > 0 {
        Flush(i, q);
      }
      assert forall x | x in queues && x != q :: x.msgs == old(x.msgs);
    }

    method Flush(ghost i: nat, q: MsgQ)
      requires Valid() && i < |queues| && queues[i] == q && q.nbrEntries > 0
      modifies `nextPtr, `nbrFree, `nbrUsed, `free, `lists, `owner
      modifies q`inPtr, q`outPtr, q`nbrEntries, q`nbrEntriesMax, q`l, q`msgs, blocks`next
      ensures Valid() && q.msgs == [] && q.nbrEntriesMax == 0 && nbrFree == old(nbrFree) + old(|q.msgs|)
        && nbrUsed == old(nbrUsed) - old(|q.msgs|) && free == old(lists)[i] + old(free)
      ensures forall j :: 0 <= j < |queues| && j != i ==> queues[j].msgs == old(queues[j].msgs)
    {
      FlushDue(i);
      assert QueueAt(i) && Elements(free) <= blocks;
      var qty := q.nbrEntries;
      ghost var owner' := AllFree(owner, i);
      assert qty == |lists[i]|;
      hide Partition, Lengths, Sum, Settled, QueueAt, FreeAt, AllFree, MsgQ.Valid;
      Splice(i, q);
      Credit(qty, owner');
    }

    lemma FlushDue(i: nat)
      requires Valid() && i < |queues|
      ensures Partition(owner, free, lists) && Due(lists[i := []], lists[i] + free, AllFree(owner, i), |lists[i]|)
    {
      assert QueueAt(i);
      FlushBooks(owner, free, lists, i);
    }

    method Splice(ghost i: nat, q: MsgQ)
      requires QueuesOk() && FreeChain(nextPtr, free) && i < |queues| && queues[i] == q && q.nbrEntries > 0
      requires Partition(owner, free, lists) && Elements(free) <= blocks
      modifies `nextPtr, `free, `lists
      modifies q`inPtr, q`outPtr, q`nbrEntries, q`nbrEntriesMax, q`l, q`msgs, blocks`next
      ensures QueuesOk() && FreeChain(nextPtr, free) && q.msgs == [] && q.nbrEntriesMax == 0
      ensures free == old(lists)[i] + old(free) && lists == old(lists)[i := []]
      ensures forall j :: 0 <= j < |queues| && j != i ==> queues[j].msgs == old(queues[j].msgs)
    {
      assert QueueAt(i);
      Separate(owner, free, lists, i);
      assert forall m | m in q.l :: m in blocks;
      hide Partition;
      Unlink(q);
      lists := lists[i := []];
      forall j | 0 <= j < |queues| && j != i
        ensures QueueAt(j) && queues[j].msgs == old(queues[j].msgs)
      {
        assert old(QueueAt(j)) && queues[j] != q;
        hide MsgQ.Valid;
        queues[j].Undisturbed();
      }
    }

    // The pointer writes of a flush.
    method Unlink(q: MsgQ)
      requires q.Valid() && q.nbrEntries > 0 && FreeChain(nextPtr, free) && forall m | m in q.l :: m !in free
      modifies `nextPtr, `free, q`inPtr, q`outPtr, q`nbrEntries, q`nbrEntriesMax, q`l, q`msgs, q.inPtr`next
      ensures q.Valid() && q.l == [] && q.msgs == [] && q.nbrEntriesMax == 0
        && q.nbrEntriesSize == old(q.nbrEntriesSize)
      ensures free == old(q.l) + old(free) && FreeChain(nextPtr, free)
    {
      InFront(q.inPtr, q.outPtr, q.l);
      q.nbrEntries := 0;
      q.nbrEntriesMax := 0;
      q.inPtr, q.outPtr := null, null;
      q.l, q.msgs := [], [];
    }

    method InFront(last: Msg, first: Msg, ghost l: seq<Msg>)
      requires Chain(l) && l != [] && first == l[0] && last == l[|l|-1]
      requires FreeChain(nextPtr, free) && forall m | m in l :: m !in free
      modifies `nextPtr, `free, last`next
      ensures free == l + old(free) && FreeChain(nextPtr, free)
    {
      ghost var free0 := free;
      assert forall k :: 0 <= k < |l| - 1 ==> l[k].next == l[k+1] && l[k] != last;
      last.next := nextPtr;
      nextPtr := first;
      assert last in l;
      assert forall k :: 0 <= k < |free0| ==> old(FreeAt(free0, k)) && free0[k] in free0;
      ChainThenFree(l, free0);
      free := l + free0;
    }

    // OSMsgPoolExtend, and OS_MsgPoolInit when the pool is empty. NbrFree has 16 bits, so it says
    // how many blocks are free only while they are fewer than 65536.
    method Extend(storage: seq<Msg>)
      requires Valid() && storage != [] && |storage| < QTY_LIMIT && Distinct(storage)
        && forall m | m in storage :: m !in blocks
      modifies this, Elements(storage)`next, Elements(storage)`ptr, Elements(storage)`size
      ensures QueuesOk() && queues == old(queues) && lists == old(lists)
      ensures forall x | x in queues :: x.msgs == old(x.msgs)
      ensures free == storage + old(free) && FreeChain(nextPtr, free) && Partition(owner, free, lists)
      ensures blocks == owner.Keys == old(blocks) + Elements(storage) && |owner| == old(|owner|) + |storage|
      ensures nbrUsed == old(nbrUsed) && nbrFree == (old(nbrFree) + |storage|) % QTY_LIMIT
      ensures nbrFree == |free| <==> old(nbrFree) + |storage| < QTY_LIMIT
      ensures Valid() <==> old(|owner|) + |storage| < QTY_LIMIT
    {
      hide Partition, Lengths, Sum, QueueAt, FreeAt, WithFree, Distinct;
      EnlargeBooks(storage);
      ghost var owner' := WithFree(owner, storage);
      Enlarge(storage, owner');
    }

    method Enlarge(storage: seq<Msg>, ghost owner': map<Msg, nat>)
      requires QueuesOk() && FreeChain(nextPtr, free) && Elements(free) <= blocks
      requires storage != [] && Distinct(storage) && forall m | m in storage :: m !in blocks
      modifies `nextPtr, `nbrFree, `free, `owner, `blocks, Elements(storage)`next, Elements(storage)`ptr,
        Elements(storage)`size
      ensures QueuesOk() && free == storage + old(free) && FreeChain(nextPtr, free)
      ensures blocks == old(blocks) + Elements(storage) && owner == owner'
        && nbrFree == (old(nbrFree) + |storage|) % QTY_LIMIT
      ensures forall x | x in queues :: x.msgs == old(x.msgs)
    {
      hide QueueAt, FreeAt, Distinct;
      nbrFree := (nbrFree + |storage|) % QTY_LIMIT;
      owner := owner';
      Prepend(storage);
    }

    lemma EnlargeBooks(storage: seq<Msg>)
      requires Settled(lists) && Distinct(storage) && forall m | m in storage :: m !in blocks
      ensures Elements(free) <= blocks
      ensures var owner' := WithFree(owner, storage);
        Partition(owner', storage + free, lists) && owner'.Keys == blocks + Elements(storage)
          && |owner'| == |owner| + |storage|
    {
      BlocksAdded(owner, free, lists, storage);
      AddedCount(owner, storage);
    }

    method Prepend(storage: seq<Msg>)
      requires QueuesOk() && FreeChain(nextPtr, free) && Elements(free) <= blocks
      requires storage != [] && Distinct(storage) && forall m | m in storage :: m !in blocks
      modifies `nextPtr, `free, `blocks, Elements(storage)`next, Elements(storage)`ptr, Elements(storage)`size
      ensures QueuesOk() && FreeChain(nextPtr, free) && free == storage + old(free)
        && blocks == old(blocks) + Elements(storage)
      ensures forall x | x in queues :: x.msgs == old(x.msgs)
    {
      hide FreeChain, FreeAt, MsgQ.Valid;
      PutAhead(storage);
      blocks := blocks + Elements(storage);
      forall j | 0 <= j < |queues|
        ensures QueueAt(j) && queues[j].msgs == old(queues[j].msgs)
      {
        assert old(QueueAt(j));
        queues[j].Undisturbed();
      }
    }

    // The pointer writes: the new blocks, linked to each other, and then the old free list.
    method PutAhead(storage: seq<Msg>)
      requires FreeChain(nextPtr, free) && storage != [] && Distinct(storage) && forall m | m in storage :: m !in free
      modifies `nextPtr, `free, Elements(storage)`next, Elements(storage)`ptr, Elements(storage)`size
      ensures FreeChain(nextPtr, free) && free == storage + old(free)
    {
      ghost var free0 := free;
      CreateList(storage);
      storage[|storage|-1].next := nextPtr;
      nextPtr := storage[0];
      assert forall k :: 0 <= k < |free0| ==> old(FreeAt(free0, k)) && free0[k] in free0;
      ChainThenFree(storage, free0);
      free := storage + free0;
    }

    // OS_MsgQInit on a queue of this pool.
    method Register(q: MsgQ)
      requires Valid() && q.Valid() && q.l == [] && q !in queues
      modifies `queues, `members, `lists
      ensures Valid() && queues == old(queues) + [q] && blocks == old(blocks)
    {
      hide Partition, Lengths, Sum, FreeAt, MsgQ.Valid;
      ghost var queues0 := queues;
      EmptyListAdded(owner, free, lists);
      queues, members, lists := queues + [q], members + {q}, lists + [[]];
      forall j | 0 <= j < |queues|
        ensures QueueAt(j)
      {
        if j < |queues0| { assert old(QueueAt(j)); }
      }
    }
  }

  // n blocks for a pool.
  method Blocks(n: nat) returns (storage: seq<Msg>)
    ensures |storage| == n && Distinct(storage) && forall m | m in storage :: fresh(m)
  {
    storage := [];
    for i := 0 to n
      invariant |storage| == i && Distinct(storage) && forall m | m in storage :: fresh(m)
    {
      var m := new Msg;
      storage := storage + [m];
    }
  }

  // A pool of 65535 blocks, and then one more: all are on the free list, and the count of free
  // ones is 0.
  method CanOverfill() returns (p: MsgPool)
    ensures fresh(p) && p.QueuesOk() && FreeChain(p.nextPtr, p.free)
    ensures |p.free| == QTY_LIMIT && p.nbrFree == 0 && !p.Valid()
  {
    hide MsgPool.Valid, MsgPool.QueuesOk, FreeChain, Partition, Distinct;
    var first := Blocks(QTY_LIMIT - 1);
    var more := Blocks(1);
    p := new MsgPool();
    p.Extend(first);
    assert p.blocks == Elements(first) && |p.free| == p.nbrFree == QTY_LIMIT - 1;
    p.Extend(more);
    CountWraps(p.nbrFree);
  }

  lemma CountWraps(n: nat)
    ensures n == (QTY_LIMIT - 1 + 1) % QTY_LIMIT ==> n == 0
  {
  }

  // OS_MsgPoolCreate: links the blocks of an array, with two pointers one step apart.
  method CreateList(storage: seq<Msg>)
    requires storage != [] && Distinct(storage)
    modifies Elements(storage)`next, Elements(storage)`ptr, Elements(storage)`size
    ensures forall k :: 0 <= k < |storage| - 1 ==> storage[k].next == storage[k+1]
    ensures storage[|storage|-1].next == null && forall m | m in storage :: m.ptr == 0 && m.size == 0
  {
    var p1, p2 := 0, 1;
    var loops := |storage| - 1;
    for i := 0 to loops
      invariant p1 == i && p2 == i + 1
      invariant forall k :: 0 <= k < i ==>
        storage[k].next == storage[k+1] && storage[k].ptr == 0 && storage[k].size == 0
    {
      storage[p1].next := storage[p2];
      storage[p1].ptr := 0;
      storage[p1].size := 0;
      p1 := p1 + 1;
      p2 := p2 + 1;
    }
    storage[p1].next := null;
    storage[p1].ptr := 0;
    storage[p1].size := 0;
  }

  // A chain whose last block points to the free list is a free list.
  lemma ChainThenFree(l: seq<Msg>, free: seq<Msg>)
    requires l != [] && Distinct(l) && Distinct(free) && forall m | m in l :: m !in free
    requires forall k :: 0 <= k < |l| - 1 ==> l[k].next == l[k+1]
    requires l[|l|-1].next == (if free == [] then null else free[0])
    requires forall k :: 0 <= k < |free| ==> FreeAt(free, k)
    ensures FreeChain(l[0], l + free)
  {
    var r := l + free;
    forall j, k | 0 <= j < k < |r|
      ensures r[j] != r[k]
    {
      if j < |l| <= k { assert r[j] in l && free[k-|l|] in free; }
    }
    forall k | 0 <= k < |r|
      ensures FreeAt(r, k)
    {
      if k >= |l| { assert FreeAt(free, k - |l|); }
    }
  }

  // What the books say once all blocks of list i are free.
  lemma FlushBooks(owner: map<Msg, nat>, free: seq<Msg>, lists: seq<seq<Msg>>, i: nat)
    requires Partition(owner, free, lists) && i < |lists| && Distinct(lists[i]) && Distinct(free)
    ensures var owner' := AllFree(owner, i);
      && Partition(owner', lists[i] + free, lists[i := []]) && owner'.Keys == owner.Keys && |owner'| == |owner|
      && Sum(Lengths(lists[i := []])) == Sum(Lengths(lists)) - |lists[i]|
  {
    ListFreed(owner, free, lists, i);
    LengthUpdate(lists, i, []);
    assert |AllFree(owner, i).Keys| == |owner.Keys|;
  }

  lemma {:induction false} AddedCount(owner: map<Msg, nat>, added: seq<Msg>)
    requires Distinct(added) && forall m | m in added :: m !in owner
    ensures |WithFree(owner, added)| == |owner| + |added|
  {
    var owner' := WithFree(owner, added);
    DistinctSize(added);
    assert |owner'| == |owner'.Keys| && |owner| == |owner.Keys|;
    assert owner.Keys !! Elements(added);
  }

  lemma EmptyListAdded(owner: map<Msg, nat>, free: seq<Msg>, lists: seq<seq<Msg>>)
    requires Partition(owner, free, lists)
    ensures Partition(owner, free, lists + [[]]) && Sum(Lengths(lists + [[]])) == Sum(Lengths(lists))
  {
    assert forall m | m in owner :: Placed(owner, free, lists, m) ==> Placed(owner, free, lists + [[]], m);
    assert Lengths(lists + [[]]) == Lengths(lists) + [0];
    SumZero(Lengths(lists));
  }

  lemma {:induction false} SumZero(n: seq<nat>)
    ensures Sum(n + [0]) == Sum(n)
  {
    if n != [] {
      assert (n + [0])[1..] == n[1..] + [0];
      SumZero(n[1..]);
    }
  }

  lemma FirstLeaves(owner: map<Msg, nat>, free: seq<Msg>, lists: seq<seq<Msg>>)
    requires Partition(owner, free, lists) && free != [] && Distinct(free)
    ensures free[0] in owner && Partition(owner - {free[0]}, free[1..], lists)
  {
    var m := free[0];
    assert m in free;
    assert forall x | x in free[1..] :: x in free && x != m;
    forall x | x in owner - {m}
      ensures Placed(owner - {m}, free[1..], lists, x)
    {
      assert Placed(owner, free, lists, x);
    }
  }

  // What the books say once the first block of list i is meant to be free.
  lemma BookFreed(owner: map<Msg, nat>, free: seq<Msg>, lists: seq<seq<Msg>>, i: nat)
    requires Partition(owner, free, lists) && i < |lists| && lists[i] != [] && Distinct(lists[i])
    ensures var m := lists[i][0]; var lists' := lists[i := lists[i][1..]];
      && m in owner && Partition(owner[m := 0], [m] + free, lists')
      && Sum(Lengths(lists')) == Sum(Lengths(lists)) - 1
      && |owner[m := 0]| == |owner| && owner[m := 0].Keys == owner.Keys
      && m !in free && forall j :: 0 <= j < |lists'| ==> m !in lists'[j]
  {
    var m := lists[i][0];
    assert m in lists[i];
    BlockFreed(owner, free, lists, i);
    LengthUpdate(lists, i, lists[i][1..]);
  }
}
