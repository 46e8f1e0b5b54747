// Memory partitions (os_mem.c): blocks of equal size in byte memory, the free ones chained by
// pointers that are stored in their own first four bytes.

module MemPartition {
  import opened Lists

  const PTR_SIZE := 4
  const ADDR_LIMIT := 0x1_0000_0000

  type Byte = b: int | 0 <= b < 256

  function Load(m: seq<Byte>, a: nat): nat
    requires a + PTR_SIZE <= |m|
  {
    m[a] as nat + 0x100 * (m[a+1] as nat) + 0x1_0000 * (m[a+2] as nat) + 0x100_0000 * (m[a+3] as nat)
  }

  function Store(m: seq<Byte>, a: nat, v: nat): (r: seq<Byte>)
    requires a + PTR_SIZE <= |m|
    ensures |r| == |m| && forall k | 0 <= k < |m| && !(a <= k < a + PTR_SIZE) :: r[k] == m[k]
  {
    m[a := v % 0x100][a+1 := v / 0x100 % 0x100][a+2 := v / 0x1_0000 % 0x100][a+3 := v / 0x100_0000 % 0x100]
  }

  lemma LoadStored(m: seq<Byte>, a: nat, v: nat)
    requires a + PTR_SIZE <= |m| && v < ADDR_LIMIT
    ensures Load(Store(m, a, v), a) == v
  {
    var r := Store(m, a, v);
    assert r[a] == v % 0x100 && r[a+1] == v / 0x100 % 0x100 && r[a+2] == v / 0x1_0000 % 0x100
      && r[a+3] == v / 0x100_0000 % 0x100;
    Digits(v);
  }

  lemma Digits(v: nat)
    requires v < ADDR_LIMIT
    ensures v % 0x100 + 0x100 * (v / 0x100 % 0x100) + 0x1_0000 * (v / 0x1_0000 % 0x100)
      + 0x100_0000 * (v / 0x100_0000 % 0x100) == v
  {
    assert v / 0x1_0000 == v / 0x100 / 0x100;
    assert v / 0x100_0000 == v / 0x1_0000 / 0x100;
    assert v / 0x100_0000 < 0x100;
  }

  // Blocks in rising order, the whole of each in memory, none at address 0.
  ghost predicate Spaced(blocks: seq<nat>, size: nat, limit: nat) {
    && (forall i, j | 0 <= i < j < |blocks| :: blocks[i] + size <= blocks[j])
    && forall b | b in blocks :: 0 < b && b + size <= limit
  }

  lemma Apart(blocks: seq<nat>, size: nat, limit: nat, b: nat, c: nat)
    requires Spaced(blocks, size, limit) && b in blocks && c in blocks && b != c
    ensures b + size <= c || c + size <= b
  {
    var i :| 0 <= i < |blocks| && blocks[i] == b;
    var j :| 0 <= j < |blocks| && blocks[j] == c;
    if i < j { assert blocks[i] + size <= blocks[j]; } else { assert blocks[j] + size <= blocks[i]; }
  }

  ghost predicate LinkAt(m: seq<Byte>, free: seq<nat>, i: nat)
    requires i < |free|
  {
    free[i] + PTR_SIZE <= |m| && Load(m, free[i]) == if i + 1 < |free| then free[i+1] else 0
  }

  ghost predicate Chain(m: seq<Byte>, head: nat, free: seq<nat>) {
    && head == (if free == [] then 0 else free[0]) && Distinct(free) && 0 !in free
    && forall i :: 0 <= i < |free| ==> LinkAt(m, free, i)
  }

  // OS_MEM and the memory its blocks lie in.
  datatype Part = Part(mem: seq<Byte>, head: nat, nbrFree: nat, nbrMax: nat, blkSize: nat)

  // A partition, the addresses of its blocks, and those of the free ones in chain order.
  datatype Sys = Sys(p: Part, blocks: seq<nat>, free: seq<nat>)

  ghost predicate Inv(s: Sys) {
    && |s.p.mem| <= ADDR_LIMIT && s.p.blkSize >= PTR_SIZE && Spaced(s.blocks, s.p.blkSize, |s.p.mem|)
    && Chain(s.p.mem, s.p.head, s.free) && (forall b | b in s.free :: b in s.blocks)
    && s.p.nbrFree == |s.free| && s.p.nbrMax == |s.blocks|
  }

  ghost predicate Held(s: Sys, b: nat) {
    b in s.blocks && b !in s.free
  }

  datatype Op = Get | Put(b: nat) | Write(a: nat, v: Byte)

  // Clients return only blocks they hold, or find all blocks returned already, and write only inside such blocks.
  ghost predicate Allowed(s: Sys, op: Op) {
    match op
    case Get => true
    case Put(b) => Held(s, b) || (s.p.nbrFree >= s.p.nbrMax && b + PTR_SIZE <= |s.p.mem|)
    case Write(a, _) => exists b: nat :: Held(s, b) && b <= a < b + s.p.blkSize
  }

  // OSMemGet; the block handed out is the head of the chain.
  function GetBlk(p: Part): Part
    requires p.nbrFree > 0 ==> p.head + PTR_SIZE <= |p.mem|
  {
    if p.nbrFree == 0 then p else p.(head := Load(p.mem, p.head), nbrFree := p.nbrFree - 1)
  }

  // OSMemPut.
  function PutBlk(p: Part, b: nat): Part
    requires b + PTR_SIZE <= |p.mem|
  {
    if p.nbrFree >= p.nbrMax then p
    else p.(mem := Store(p.mem, b, p.head), head := b, nbrFree := p.nbrFree + 1)
  }

  function Next(s: Sys, op: Op): Sys
    requires Inv(s) && Allowed(s, op)
  {
    match op
    case Get =>
      assert s.free != [] ==> LinkAt(s.p.mem, s.free, 0);
      Sys(GetBlk(s.p), s.blocks, if s.free == [] then [] else s.free[1..])
    case Put(b) => Sys(PutBlk(s.p, b), s.blocks, if s.p.nbrFree >= s.p.nbrMax then s.free else [b] + s.free)
    case Write(a, v) => s.(p := s.p.(mem := s.p.mem[a := v]))
  }

  // Writes that stay off the pointers of the free blocks leave the chain as it is.
  lemma ChainStays(m: seq<Byte>, m': seq<Byte>, head: nat, free: seq<nat>)
    requires Chain(m, head, free) && |m'| == |m|
    requires forall f, k: nat | f in free && f <= k < f + PTR_SIZE && k < |m| :: m'[k] == m[k]
    ensures Chain(m', head, free)
  {
    forall i | 0 <= i < |free|
      ensures LinkAt(m', free, i)
    {
      assert LinkAt(m, free, i);
      var f := free[i];
      assert f in free;
      assert m'[f] == m[f] && m'[f+1] == m[f+1] && m'[f+2] == m[f+2] && m'[f+3] == m[f+3];
    }
  }

  ghost predicate OutsideHeld(s: Sys, a: nat) {
    forall b | b in s.blocks && b !in s.free :: !(b <= a < b + s.p.blkSize)
  }

  // Whatever clients write into the blocks they hold, the chain of the free ones stays.
  lemma ClientsKeepChain(s: Sys, m': seq<Byte>)
    requires Inv(s) && |m'| == |s.p.mem|
    requires forall k: nat | k < |m'| && OutsideHeld(s, k) :: m'[k] == s.p.mem[k]
    ensures Inv(s.(p := s.p.(mem := m')))
  {
    var m := s.p.mem;
    forall f, k: nat | f in s.free && f <= k < f + PTR_SIZE && k < |m|
      ensures m'[k] == m[k]
    {
      forall b | b in s.blocks && b !in s.free
        ensures !(b <= k < b + s.p.blkSize)
      {
        Apart(s.blocks, s.p.blkSize, |m|, b, f);
      }
      assert OutsideHeld(s, k);
    }
    ChainStays(m, m', s.p.head, s.free);
  }

  lemma GetKeeps(s: Sys)
    requires Inv(s)
    ensures Inv(Next(s, Get))
    ensures s.p.nbrFree > 0 <==> s.free != []
    ensures s.p.nbrFree > 0 ==> s.p.head in s.blocks && !Held(s, s.p.head) && Held(Next(s, Get), s.p.head)
  {
    if s.free != [] {
      var f := s.free;
      assert LinkAt(s.p.mem, f, 0);
      assert f[0] in f;
      forall i | 0 <= i < |f| - 1
        ensures LinkAt(s.p.mem, f[1..], i)
      {
        assert LinkAt(s.p.mem, f, i + 1);
      }
      assert forall b | b in f[1..] :: b in f;
    }
  }

  lemma PutChain(m: seq<Byte>, head: nat, free: seq<nat>, b: nat)
    requires Chain(m, head, free) && b !in free && b != 0 && b + PTR_SIZE <= |m| <= ADDR_LIMIT
    requires forall f | f in free :: b + PTR_SIZE <= f || f + PTR_SIZE <= b
    ensures Chain(Store(m, b, head), b, [b] + free)
  {
    var m' := Store(m, b, head);
    assert free != [] ==> free[0] in free && LinkAt(m, free, 0);
    LoadStored(m, b, head);
    ChainStays(m, m', head, free);
    forall i | 0 <= i < |free| + 1
      ensures LinkAt(m', [b] + free, i)
    {
      if i > 0 { assert LinkAt(m', free, i - 1); }
    }
  }

  lemma PutKeeps(s: Sys, b: nat)
    requires Inv(s) && Held(s, b)
    ensures s.p.nbrFree < s.p.nbrMax && Inv(Next(s, Put(b)))
  {
    HeldCount(s);
    assert b in HeldBlocks(s);
    forall f | f in s.free
      ensures b + PTR_SIZE <= f || f + PTR_SIZE <= b
    {
      Apart(s.blocks, s.p.blkSize, |s.p.mem|, b, f);
    }
    PutChain(s.p.mem, s.p.head, s.free, b);
  }

  ghost function HeldBlocks(s: Sys): set<nat> {
    set b | b in s.blocks && b !in s.free
  }

  // Free and held blocks together are the blocks of the partition.
  lemma HeldCount(s: Sys)
    requires Inv(s)
    ensures s.p.nbrFree + |HeldBlocks(s)| == s.p.nbrMax
  {
    assert Elements(s.blocks) == Elements(s.free) + HeldBlocks(s);
    assert Elements(s.free) !! HeldBlocks(s);
    DistinctSize(s.free);
    assert Distinct(s.blocks);
    DistinctSize(s.blocks);
  }

  // Putting a block back leaves a finite free list exactly when the block was not on it
  // already; OSMemPut itself only compares the counters.
  lemma PutAgain(s: Sys, b: nat)
    requires Inv(s) && b in s.blocks && s.p.nbrFree < s.p.nbrMax
    ensures (exists l :: Chain(PutBlk(s.p, b).mem, PutBlk(s.p, b).head, l)) <==> b !in s.free
  {
    if b !in s.free {
      PutKeeps(s, b);
      assert Chain(PutBlk(s.p, b).mem, b, [b] + s.free);
    } else if l :| Chain(PutBlk(s.p, b).mem, b, l) {
      var k :| 0 <= k < |s.free| && s.free[k] == b;
      LoopsBack(s, b, k, l, k);
    }
  }

  // As soon as one block is out, putting back one that is not spoils the list.
  lemma CanPutTwice(s: Sys)
    requires Inv(s) && |s.free| >= 2
    ensures var s' := Next(s, Get); var b := s.free[1];
      && Inv(s') && b in s'.blocks && b in s'.free && s'.p.nbrFree < s'.p.nbrMax
      && !exists l :: Chain(PutBlk(s'.p, b).mem, PutBlk(s'.p, b).head, l)
  {
    var s' := Next(s, Get);
    GetKeeps(s);
    assert s'.free[0] == s.free[1];
    HeldCount(s');
    assert s.free[0] in HeldBlocks(s');
    PutAgain(s', s.free[1]);
  }

  // Along such a list one meets the old chain, and so the block again.
  lemma {:induction false} LoopsBack(s: Sys, b: nat, k: nat, l: seq<nat>, i: nat)
    requires Inv(s) && s.p.nbrFree < s.p.nbrMax && i <= k < |s.free| && s.free[k] == b
    requires b + PTR_SIZE <= |s.p.mem| && Chain(PutBlk(s.p, b).mem, b, l)
    ensures i + 1 < |l| && l[i+1] == s.free[i]
  {
    var m, m' := s.p.mem, PutBlk(s.p, b).mem;
    assert b in s.free && s.free[0] in s.free && s.free[i] in s.free;
    if i == 0 {
      assert LinkAt(m', l, 0) && LinkAt(m, s.free, 0);
      LoadStored(m, b, s.p.head);
    } else {
      LoopsBack(s, b, k, l, i - 1);
      assert LinkAt(m', l, i);
      var f := s.free[i-1];
      assert f in s.free;
      Apart(s.blocks, s.p.blkSize, |m|, f, b);
      assert LinkAt(m, s.free, i - 1);
    }
  }

  lemma StepKeeps(s: Sys, op: Op)
    requires Inv(s) && Allowed(s, op)
    ensures Inv(Next(s, op)) && Next(s, op).blocks == s.blocks
  {
    match op
    case Get => GetKeeps(s);
    case Put(b) => if Held(s, b) { PutKeeps(s, b); }
    case Write(a, v) => ClientsKeepChain(s, s.p.mem[a := v]);
  }

  ghost predicate AllAllowed(s: Sys, ops: seq<Op>)
    requires Inv(s)
    decreases |ops|
  {
    if ops == [] then true
    else
      Allowed(s, ops[0]) && (StepKeeps(s, ops[0]); AllAllowed(Next(s, ops[0]), ops[1..]))
  }

  ghost function Run(s: Sys, ops: seq<Op>): Sys
    requires Inv(s) && AllAllowed(s, ops)
    decreases |ops|
  {
    if ops == [] then s
    else
      StepKeeps(s, ops[0]);
      Run(Next(s, ops[0]), ops[1..])
  }

  // However blocks come and go and whatever is written into them, no block is lost or handed
  // out twice.
  lemma {:induction false} RunKeeps(s: Sys, ops: seq<Op>)
    requires Inv(s) && AllAllowed(s, ops)
    ensures var s' := Run(s, ops);
      Inv(s') && s'.blocks == s.blocks && s'.p.nbrFree + |HeldBlocks(s')| == s.p.nbrMax
    decreases |ops|
  {
    if ops == [] {
      HeldCount(s);
    } else {
      StepKeeps(s, ops[0]);
      RunKeeps(Next(s, ops[0]), ops[1..]);
    }
  }

  datatype Error = NoError | InvalidAddr | InvalidBlks | InvalidSize

  // The comment above OSMemCreate allows the call to end with err: each error names a fault that
  // the arguments have, and a block must be larger than a pointer.
  predicate Documented(addr: nat, nBlks: nat, size: nat, err: Error) {
    match err
    case InvalidAddr => addr == 0 || addr % PTR_SIZE != 0
    case InvalidBlks => nBlks < 2
    case InvalidSize => size <= PTR_SIZE || size % PTR_SIZE != 0
    case NoError => addr != 0 && addr % PTR_SIZE == 0 && nBlks >= 2 && size > PTR_SIZE && size % PTR_SIZE == 0
  }

  // The code lets pass a block that has just room for a pointer, and one whose size is no
  // multiple of a pointer's.
  predicate BadSizeOnly(addr: nat, nBlks: nat, size: nat) {
    && addr != 0 && addr % PTR_SIZE == 0 && nBlks >= 2
    && (size == PTR_SIZE || (size > PTR_SIZE && size % PTR_SIZE != 0))
  }

  class Mem {
    var mem: array<Byte>
    var freeListPtr: nat
    var nbrFree: nat
    var nbrMax: nat
    var blkSize: nat
    ghost var blocks: seq<nat>
    ghost var free: seq<nat>

    constructor (mem: array<Byte>)
      ensures this.mem == mem
    {
      this.mem, freeListPtr, nbrFree, nbrMax, blkSize, blocks, free := mem, 0, 0, 0, 0, [], [];
    }

    ghost function View(): Sys
      reads this, mem
    {
      Sys(Part(mem[..], freeListPtr, nbrFree, nbrMax, blkSize), blocks, free)
    }

    // *(void **)a = v
    method StorePtr(a: nat, v: nat)
      requires a + PTR_SIZE <= mem.Length
      modifies mem
      ensures mem[..] == Store(old(mem[..]), a, v)
    {
      mem[a] := v % 0x100;
      mem[a+1] := v / 0x100 % 0x100;
      mem[a+2] := v / 0x1_0000 % 0x100;
      mem[a+3] := v / 0x100_0000 % 0x100;
    }

    // OSMemGet.
    method Get() returns (ok: bool, b: nat)
      requires Inv(View())
      modifies `freeListPtr, `nbrFree, `free
      ensures Inv(View()) && ok == (old(nbrFree) > 0)
      ensures ok ==> View() == Next(old(View()), Op.Get) && b == old(freeListPtr)
      ensures ok ==> !Held(old(View()), b) && Held(View(), b)
      ensures !ok ==> View() == old(View()) && b == 0
    {
      if nbrFree == 0 {
        return false, 0;
      }
      GetKeeps(View());
      assert LinkAt(mem[..], free, 0);
      ok, b := true, freeListPtr;
      freeListPtr := Load(mem[..], b);
      nbrFree := nbrFree - 1;
      free := free[1..];
    }

    // OSMemPut.
    method Put(b: nat) returns (ok: bool)
      requires Inv(View()) && Allowed(View(), Op.Put(b))
      modifies `freeListPtr, `nbrFree, `free, mem
      ensures ok == (old(nbrFree) < nbrMax) && Inv(View()) && View() == Next(old(View()), Op.Put(b))
      ensures ok ==> freeListPtr == b && !Held(View(), b)
      ensures !ok ==> View() == old(View())
    {
      StepKeeps(View(), Op.Put(b));
      if nbrFree >= nbrMax {
        return false;
      }
      StorePtr(b, freeListPtr);
      freeListPtr := b;
      nbrFree := nbrFree + 1;
      free := [b] + free;
      ok := true;
    }

    // OSMemCreate. A block size equal to that of a pointer passes, and one that is not a multiple
    // of it sets the error code but does not return, and the code is overwritten at the end.
    method Create(addr: nat, nBlks: nat, size: nat) returns (err: Error)
      requires mem.Length <= ADDR_LIMIT
      requires addr != 0 && addr % PTR_SIZE == 0 && nBlks >= 2 && size >= PTR_SIZE ==> addr + nBlks * size <= mem.Length
      modifies this, mem
      ensures Documented(addr, nBlks, size, err) <==> !BadSizeOnly(addr, nBlks, size)
      ensures err == NoError <==> addr != 0 && addr % PTR_SIZE == 0 && nBlks >= 2 && size >= PTR_SIZE
      ensures err == InvalidBlks <==> addr != 0 && nBlks < 2
      ensures err == InvalidSize <==> addr != 0 && nBlks >= 2 && size < PTR_SIZE
      ensures err == NoError ==>
        Inv(View()) && blkSize == size && mem == old(mem) && free == blocks && |blocks| == nBlks
      ensures err == NoError ==> forall i :: 0 <= i < nBlks ==> blocks[i] == addr + i * size
    {
      if addr == 0 {
        return InvalidAddr;
      }
      if nBlks < 2 {
        return InvalidBlks;
      }
      if size < PTR_SIZE {
        return InvalidSize;
      }
      if addr % PTR_SIZE != 0 {
        return InvalidAddr;
      }
      if size % PTR_SIZE != 0 {
        err := InvalidSize;
      }
      ghost var list := seq(nBlks, i requires 0 <= i < nBlks => addr + i * size);
      EvenlySpaced(list, addr, size, mem.Length);
      LinkBlocks(addr, nBlks, size, list);
      freeListPtr, nbrFree, nbrMax, blkSize := addr, nBlks, nBlks, size;
      blocks, free := list, list;
      err := NoError;
    }

    // The loop of OSMemCreate.
    method LinkBlocks(addr: nat, nBlks: nat, size: nat, ghost list: seq<nat>)
      requires |list| == nBlks >= 2 && size >= PTR_SIZE && Spaced(list, size, mem.Length) && mem.Length <= ADDR_LIMIT
      requires list[0] == addr && forall i :: 0 <= i < nBlks - 1 ==> list[i+1] == list[i] + size
      modifies mem
      ensures Chain(mem[..], addr, list)
    {
      var link, blk := addr, addr;
      var loops := nBlks - 1;
      for i := 0 to loops
        invariant link == blk == list[i]
        invariant forall k :: 0 <= k < i ==> LinkAt(mem[..], list, k)
      {
        blk := blk + size;
        WriteLink(link, blk, size, list, i);
        link := blk;
      }
      WriteLink(link, 0, size, list, loops);
      assert forall b | b in list :: b != 0;
    }

    method WriteLink(link: nat, v: nat, size: nat, ghost list: seq<nat>, ghost i: nat)
      requires i < |list| && size >= PTR_SIZE && Spaced(list, size, mem.Length) && mem.Length <= ADDR_LIMIT
      requires link == list[i] && v == if i + 1 < |list| then list[i+1] else 0
      requires forall k :: 0 <= k < i ==> LinkAt(mem[..], list, k)
      modifies mem
      ensures forall k :: 0 <= k < i + 1 ==> LinkAt(mem[..], list, k)
    {
      ghost var m := mem[..];
      assert link in list && (i + 1 < |list| ==> v in list);
      LoadStored(m, link, v);
      StorePtr(link, v);
      forall k | 0 <= k < i
        ensures LinkAt(mem[..], list, k)
      {
        assert list[k] + size <= list[i] && LinkAt(m, list, k);
      }
    }
  }

  lemma EvenlySpaced(list: seq<nat>, addr: nat, size: nat, limit: nat)
    requires size > 0 && addr > 0 && addr + |list| * size <= limit
    requires forall i :: 0 <= i < |list| ==> list[i] == addr + i * size
    ensures Spaced(list, size, limit) && forall i :: 0 <= i < |list| - 1 ==> list[i+1] == list[i] + size
  {
    forall i, j | 0 <= i < j < |list|
      ensures list[i] + size <= list[j]
    {
      Multiples(i, j, size);
    }
    forall b | b in list
      ensures 0 < b && b + size <= limit
    {
      var i :| 0 <= i < |list| && list[i] == b;
      Multiples(i, |list|, size);
    }
    forall i | 0 <= i < |list| - 1
      ensures list[i+1] == list[i] + size
    {
      Multiples(i, i + 1, size);
    }
  }

  lemma Multiples(i: nat, j: nat, size: nat)
    requires i < j
    ensures 0 <= i * size && i * size + size <= j * size && (j == i + 1 ==> i * size + size == j * size)
  {
    assert j * size == i * size + (j - i) * size;
    assert (j - i) * size == size + (j - i - 1) * size;
  }
}
