// The tick wheel as os_tick.c keeps it: doubly linked control blocks hanging off an array
// of spokes, rewired in place, and proved against TickWheelSpec.

module TickList {
  import opened Ticks
  import opened Lists
  import opened Tasks
  import opened TickRuns
  import Spec = TickWheelSpec

  const NO_SPOKE := -1

  class Tcb {
    var tickNext: Tcb?
    var tickPrev: Tcb?
    var tickSpoke: int
    var tickCtrPrev: Tick
    var tickCtrMatch: Tick
    var tickRemain: Tick
    var taskState: TaskState
  }

  // The links and back pointer of a control block are those of entry i of list l on spoke k.
  ghost predicate LinkedAt(l: seq<Tcb>, i: nat, k: int)
    requires i < |l|
    reads Elements(l)`tickNext, Elements(l)`tickPrev, Elements(l)`tickSpoke
  {
    && l[i].tickNext == (if i + 1 < |l| then l[i+1] else null)
    && l[i].tickPrev == (if i > 0 then l[i-1] else null)
    && l[i].tickSpoke == k
  }

  ghost predicate LinkedList(l: seq<Tcb>, k: int)
    reads Elements(l)`tickNext, Elements(l)`tickPrev, Elements(l)`tickSpoke
  {
    forall i :: 0 <= i < |l| ==> LinkedAt(l, i, k)
  }

  ghost function Solo(t: Tcb?): set<Tcb> {
    if t == null then {} else {t}
  }

  // Wire t into the doubly linked list l in front of q, or at the end when q is null; tell
  // whether it came out first.
  method Wire(t: Tcb, k: nat, q: Tcb?, last: Tcb?, ghost l: seq<Tcb>, ghost p: nat) returns (front: bool)
    requires Distinct(l) && LinkedList(l, k) && t !in l && p <= |l|
    requires q == if p < |l| then l[p] else null
    requires q == null ==> last == if l == [] then null else l[|l|-1]
    modifies t`tickNext, t`tickPrev, t`tickSpoke
    modifies (if p > 0 then {l[p-1]} else {})`tickNext, Solo(q)`tickPrev
    ensures Distinct(InsertAt(l, p, t)) && LinkedList(InsertAt(l, p, t), k)
    ensures front <==> p == 0
  {
    assert p < |l| ==> l[p] == q && LinkedAt(l, p, k);
    assert p > 0 ==> l[p-1] in l && LinkedAt(l, p - 1, k);
    if q == null {
      t.tickNext := null;
      t.tickPrev := last;
      if last != null { last.tickNext := t; }
      front := last == null;
    } else if q.tickPrev == null {
      t.tickPrev := null;
      t.tickNext := q;
      q.tickPrev := t;
      front := true;
    } else {
      var before := q.tickPrev;
      t.tickPrev := before;
      t.tickNext := q;
      before.tickNext := t;
      q.tickPrev := t;
      front := false;
    }
    t.tickSpoke := k;
    ghost var l' := InsertAt(l, p, t);
    assert forall i :: 0 <= i < |l'| ==> l'[i] == if i < p then l[i] else if i == p then t else l[i-1];
    forall i | 0 <= i < |l'|
      ensures LinkedAt(l', i, k)
    {
      if i < p { assert old(LinkedAt(l, i, k)); }
      if i > p { assert old(LinkedAt(l, i - 1, k)); }
    }
  }

  // Take entry p out of the doubly linked list l.
  method Unwire(t: Tcb, isFirst: bool, ghost l: seq<Tcb>, ghost p: nat, ghost k: int)
    requires Distinct(l) && LinkedList(l, k) && p < |l| && l[p] == t
    requires isFirst <==> p == 0
    modifies t`tickNext, t`tickPrev, t`tickSpoke, Solo(t.tickPrev)`tickNext, Solo(t.tickNext)`tickPrev
    ensures Distinct(RemoveAt(l, p)) && LinkedList(RemoveAt(l, p), k)
    ensures t.tickNext == null && t.tickPrev == null && t.tickSpoke == NO_SPOKE
  {
    assert LinkedAt(l, p, k);
    assert p > 0 ==> l[p-1] in l && LinkedAt(l, p - 1, k);
    assert p + 1 < |l| ==> l[p+1] in l && LinkedAt(l, p + 1, k);
    if isFirst {
      var next := t.tickNext;
      if next != null { next.tickPrev := null; }
    } else {
      var prev, next := t.tickPrev, t.tickNext;
      prev.tickNext := next;
      if next != null { next.tickPrev := prev; }
    }
    t.tickNext := null;
    t.tickPrev := null;
    t.tickSpoke := NO_SPOKE;
    ghost var l' := RemoveAt(l, p);
    assert forall i :: 0 <= i < |l'| ==> l'[i] == if i < p then l[i] else l[i+1];
    forall i | 0 <= i < |l'|
      ensures LinkedAt(l', i, k)
    {
      if i < p { assert old(LinkedAt(l, i, k)); } else { assert old(LinkedAt(l, i + 1, k)); }
    }
  }

  // The first half of OS_TickListInsert: work out the match value.
  method Aim(t: Tcb, ctr: Tick, time: Tick, opt: TimeOpt) returns (ok: bool)
    modifies t`tickSpoke, t`tickCtrPrev, t`tickCtrMatch, t`tickRemain
    ensures match PlanOf(ctr, old(t.tickCtrPrev), time, opt)
      case ZeroDly =>
        && !ok && t.tickSpoke == NO_SPOKE && t.tickCtrMatch == 0 && t.tickRemain == 0
        && t.tickCtrPrev == old(t.tickCtrPrev)
      case Wake(due, prev) =>
        && ok && t.tickCtrMatch == due && t.tickCtrPrev == prev && t.tickRemain == Minus(due, ctr)
  {
    if opt == Match {
      var delta := Minus(Minus(time, ctr), 1);
      if delta > OS_TICK_TH_RDY {
        t.tickCtrMatch, t.tickRemain, t.tickSpoke := 0, 0, NO_SPOKE;
        return false;
      }
      t.tickCtrMatch := time;
      t.tickRemain := Plus(delta, 1);
    } else if time > 0 {
      if opt == Periodic {
        var next := Plus(t.tickCtrPrev, time);
        var delta := Minus(Minus(next, ctr), 1);
        if delta < time { t.tickCtrMatch := next; } else { t.tickCtrMatch := Plus(ctr, time); }
        t.tickRemain := Minus(t.tickCtrMatch, ctr);
        t.tickCtrPrev := t.tickCtrMatch;
      } else {
        t.tickCtrMatch := Plus(ctr, time);
        t.tickRemain := time;
      }
    } else {
      t.tickCtrMatch, t.tickRemain, t.tickSpoke := 0, 0, NO_SPOKE;
      return false;
    }
    return true;
  }

  lemma Neighbours(l: seq<Tcb>, k: int, p: nat)
    requires LinkedList(l, k) && p <= |l|
    ensures p > 0 ==> l[p-1].tickSpoke == k
    ensures p < |l| ==> l[p].tickSpoke == k
  {
    assert (p > 0 ==> LinkedAt(l, p - 1, k)) && (p < |l| ==> LinkedAt(l, p, k));
  }

  lemma Around(l: seq<Tcb>, k: int, p: nat)
    requires Distinct(l) && LinkedList(l, k) && p < |l|
    ensures l[p].tickNext == if p + 1 < |l| then l[p+1] else null
    ensures l[p].tickPrev == if p > 0 then l[p-1] else null
    ensures p > 0 ==> l[p-1].tickSpoke == k && l[0] != l[p]
    ensures p + 1 < |l| ==> l[p+1].tickSpoke == k
  {
    assert LinkedAt(l, p, k) && (p > 0 ==> LinkedAt(l, p - 1, k)) && (p + 1 < |l| ==> LinkedAt(l, p + 1, k));
  }

  class TickWheel {
    var ctr: Tick
    const first: array<Tcb?>
    const nbrEntries: array<nat>
    ghost var lists: seq<seq<Tcb>>
    ghost var nodes: set<Tcb>

    // OS_TickListInit on a wheel of size spokes.
    constructor (size: nat)
      requires size > 0
      ensures Valid() && fresh(first) && fresh(nbrEntries)
      ensures ctr == 0 && nodes == {} && |lists| == size && forall k :: 0 <= k < size ==> lists[k] == []
    {
      ctr := 0;
      first := new Tcb?[size];
      nbrEntries := new nat[size];
      lists, nodes := seq(size, _ => []), {};
      new;
      for i := 0 to size
        invariant ctr == 0 && lists == seq(size, _ => []) && nodes == {}
        invariant forall k :: 0 <= k < i ==> first[k] == null && nbrEntries[k] == 0
      {
        first[i] := null;
        nbrEntries[i] := 0;
      }
      assert forall k :: 0 <= k < size ==> SpokeLinked(k);
    }

    // Spoke k as a whole: its counter, its first entry and its chain of links.
    ghost predicate SpokeLinked(k: nat)
      reads `lists, `nodes, first, nbrEntries, nodes`tickNext, nodes`tickPrev, nodes`tickSpoke
      requires |lists| == first.Length == nbrEntries.Length && k < |lists|
    {
      && nbrEntries[k] == |lists[k]|
      && first[k] == (if lists[k] == [] then null else lists[k][0])
      && Distinct(lists[k])
      && Elements(lists[k]) <= nodes
      && LinkedList(lists[k], k)
    }

    ghost predicate Linked()
      reads `lists, `nodes, first, nbrEntries, nodes`tickNext, nodes`tickPrev, nodes`tickSpoke
    {
      && |lists| == first.Length == nbrEntries.Length > 0
      && (forall k :: 0 <= k < |lists| ==> SpokeLinked(k))
    }

    ghost function Abs(): Spec.Wheel<Tcb>
      reads this, nodes`tickCtrMatch
    {
      Spec.Wheel(ctr, lists, map t | t in nodes :: t.tickCtrMatch)
    }

    ghost predicate Valid()
      reads this, first, nbrEntries, nodes`tickNext, nodes`tickPrev, nodes`tickSpoke, nodes`tickCtrMatch
    {
      Linked() && Spec.Valid(Abs())
    }

    // A spoke none of whose entries was written stays linked.
    twostate lemma Undisturbed(j: nat)
      requires j < |old(lists)| == |lists| == first.Length == nbrEntries.Length && lists[j] == old(lists[j])
      requires old(SpokeLinked(j))
      requires first[j] == old(first[j]) && nbrEntries[j] == old(nbrEntries[j])
      requires forall t :: t in old(nodes) && old(t.tickSpoke) == j ==>
        t in nodes && t.tickNext == old(t.tickNext) && t.tickPrev == old(t.tickPrev) && t.tickSpoke == old(t.tickSpoke)
      ensures SpokeLinked(j)
    {
      forall i | 0 <= i < |lists[j]|
        ensures LinkedAt(lists[j], i, j) && lists[j][i] in nodes
      {
        assert old(LinkedAt(lists[j], i, j));
        assert lists[j][i] in Elements(lists[j]);
      }
    }

    // Hang t on spoke k at position p; q is the entry found there, last the final entry.
    method Link(t: Tcb, k: nat, q: Tcb?, last: Tcb?, ghost p: nat)
      requires Linked() && k < |lists| && t !in nodes && p <= |lists[k]|
      requires q == if p < |lists[k]| then lists[k][p] else null
      requires q == null ==> last == if lists[k] == [] then null else lists[k][|lists[k]|-1]
      modifies `lists, `nodes, first, nbrEntries, t`tickNext, t`tickPrev, t`tickSpoke, lists[k]`tickNext,
        lists[k]`tickPrev
      ensures Linked()
      ensures nodes == old(nodes) + {t}
      ensures lists == old(lists)[k := InsertAt(old(lists[k]), p, t)]
    {
      hide LinkedAt, LinkedList, Distinct;
      ghost var l := lists[k];
      assert SpokeLinked(k);
      Neighbours(l, k, p);
      var front := Wire(t, k, q, last, l, p);
      if front { first[k] := t; }
      nbrEntries[k] := nbrEntries[k] + 1;
      lists := lists[k := InsertAt(lists[k], p, t)];
      nodes := nodes + {t};
      InsertAtMembers(l, p, t);
      assert SpokeLinked(k);
      forall j | 0 <= j < |lists| && j != k
        ensures SpokeLinked(j)
      {
        assert old(SpokeLinked(j));
        Undisturbed(j);
      }
    }

    // Take t off its spoke and clear its timing fields.
    method Unlink(t: Tcb) returns (ghost p: nat)
      requires Linked() && t in nodes && 0 <= t.tickSpoke < |lists| && t in lists[t.tickSpoke]
      modifies `lists, `nodes, first, nbrEntries, t`tickSpoke, nodes`tickNext, nodes`tickPrev
      ensures Linked()
      ensures nodes == old(nodes) - {t}
      ensures p < |old(lists[t.tickSpoke])| && old(lists[t.tickSpoke])[p] == t
      ensures lists == old(lists)[old(t.tickSpoke) := RemoveAt(old(lists[t.tickSpoke]), p)]
      ensures t.tickNext == null && t.tickPrev == null && t.tickSpoke == NO_SPOKE
    {
      hide LinkedAt, LinkedList, Distinct;
      var k := t.tickSpoke;
      ghost var l := lists[k];
      p :| 0 <= p < |l| && l[p] == t;
      assert SpokeLinked(k);
      Around(l, k, p);
      var isFirst := first[k] == t;
      if isFirst { first[k] := t.tickNext; }
      nbrEntries[k] := nbrEntries[k] - 1;
      Unwire(t, isFirst, l, p, k);
      RemoveAtMembers(l, p);
      lists := lists[k := RemoveAt(l, p)];
      nodes := nodes - {t};
      assert SpokeLinked(k);
      forall j | 0 <= j < |lists| && j != k
        ensures SpokeLinked(j)
      {
        assert old(SpokeLinked(j));
        Undisturbed(j);
      }
    }

    // Walk spoke k for the place of an entry with r ticks left, refreshing the remaining
    // time of every entry met.
    method Search(k: nat, r: Tick) returns (q: Tcb?, last: Tcb?, ghost p: nat)
      requires Valid() && k < |lists|
      modifies nodes`tickRemain
      ensures p == Spec.InsertPos(Abs().due, ctr, lists[k], r)
      ensures q == if p < |lists[k]| then lists[k][p] else null
      ensures q == null ==> last == if lists[k] == [] then null else lists[k][|lists[k]|-1]
    {
      hide Spec.Valid;
      ghost var l, due := lists[k], Abs().due;
      assert SpokeLinked(k);
      q, last, p := first[k], null, 0;
      while q != null
        invariant p <= |l| && q == (if p < |l| then l[p] else null)
        invariant q == null ==> last == if l == [] then null else l[|l|-1]
        invariant forall i :: 0 <= i < p ==> Minus(due[l[i]], ctr) < r
        invariant Linked()
        decreases |l| - p
      {
        assert l[p] in Elements(l) && LinkedAt(l, p, k);
        q.tickRemain := Minus(q.tickCtrMatch, ctr);
        if r > q.tickRemain {
          last, q, p := q, q.tickNext, p + 1;
        } else {
          return;
        }
      }
    }

    // Find the place of t on spoke k and link it there.
    method Place(t: Tcb, k: nat)
      requires Valid() && k < |lists| && t !in nodes
      modifies `lists, `nodes, first, nbrEntries, nodes`tickNext, nodes`tickPrev, nodes`tickRemain
      modifies t`tickNext, t`tickPrev, t`tickSpoke
      ensures Linked()
      ensures nodes == old(nodes) + {t}
      ensures lists == old(lists)[k :=
        InsertAt(old(lists[k]), Spec.InsertPos(old(Abs().due), ctr, old(lists[k]), t.tickRemain), t)]
    {
      hide Spec.Valid;
      assert SpokeLinked(k);
      var q, last, p := Search(k, t.tickRemain);
      Link(t, k, q, last, p);
    }

    // The second half of OS_TickListInsert: hash to a spoke and link in order of expiry.
    method Hang(t: Tcb)
      requires Valid() && t !in nodes
      requires t.tickCtrMatch != ctr && t.tickRemain == Minus(t.tickCtrMatch, ctr)
      modifies `lists, `nodes, first, nbrEntries, nodes`tickNext, nodes`tickPrev, nodes`tickRemain
      modifies t`tickNext, t`tickPrev, t`tickSpoke
      ensures Valid()
      ensures Abs() == Spec.Insert(old(Abs()), t, t.tickCtrMatch)
    {
      hide Spec.Valid, SpokeLinked;
      ghost var w := Abs();
      Spec.InsertRefines(w, t, t.tickCtrMatch);
      var k := SpokeOf(t.tickCtrMatch, first.Length);
      Place(t, k);
      assert Abs().due == w.due[t := t.tickCtrMatch];
    }

    // OS_TickListInsert: put t to sleep, or report that there is nothing to wait for.
    method Insert(t: Tcb, time: Tick, opt: TimeOpt) returns (ok: bool)
      requires Valid() && t !in nodes
      modifies `lists, `nodes, first, nbrEntries, nodes`tickNext, nodes`tickPrev, nodes`tickRemain
      modifies t`tickNext, t`tickPrev, t`tickSpoke, t`tickCtrPrev, t`tickCtrMatch, t`tickRemain
      ensures Valid()
      ensures match PlanOf(ctr, old(t.tickCtrPrev), time, opt)
        case ZeroDly =>
          && !ok && Abs() == old(Abs()) && t.tickSpoke == NO_SPOKE
          && t.tickCtrMatch == 0 && t.tickRemain == 0 && t.tickCtrPrev == old(t.tickCtrPrev)
        case Wake(due, prev) =>
          && ok && Abs() == Spec.Insert(old(Abs()), t, due) && t.tickCtrPrev == prev
          && t.tickRemain == Minus(due, ctr)
    {
      hide Spec.Valid, Linked;
      PlanMeaning(ctr, t.tickCtrPrev, time, opt);
      ok := Aim(t, ctr, time, opt);
      assert Abs() == old(Abs());
      if ok {
        Hang(t);
      }
    }

    // OS_TickListRemove: a task that is on no spoke is left alone.
    method Remove(t: Tcb)
      requires Valid() && (t in nodes <==> t.tickSpoke != NO_SPOKE)
      modifies `lists, `nodes, first, nbrEntries, nodes`tickNext, nodes`tickPrev
      modifies t`tickNext, t`tickPrev, t`tickSpoke, t`tickRemain, t`tickCtrMatch
      ensures Valid() && t !in nodes && t.tickSpoke == NO_SPOKE
      ensures Abs() == Spec.Remove(old(Abs()), t)
      ensures old(t.tickSpoke) != NO_SPOKE ==>
        t.tickNext == null && t.tickPrev == null && t.tickRemain == 0 && t.tickCtrMatch == 0
    {
      hide Spec.Valid;
      ghost var w := Abs();
      Spec.RemoveRefines(w, t);
      if t.tickSpoke != NO_SPOKE {
        OnSpoke(t);
        ghost var k := t.tickSpoke;
        ghost var p := Unlink(t);
        t.tickRemain, t.tickCtrMatch := 0, 0;
        WithoutIsRemoveAt(w.spokes[k], p);
        assert Abs().due == w.due - {t};
      }
    }

    lemma OnSpoke(t: Tcb)
      requires Valid() && t in nodes
      ensures 0 <= t.tickSpoke < |lists| && t in lists[t.tickSpoke] && Distinct(lists[t.tickSpoke])
      ensures t.tickSpoke == SpokeOf(t.tickCtrMatch, |lists|)
    {
      var k := SpokeOf(Abs().due[t], |lists|);
      assert SpokeLinked(k);
      var i :| 0 <= i < |lists[k]| && lists[k][i] == t;
      assert LinkedAt(lists[k], i, k);
    }

    // What one expiry does to the first task of spoke k: it is off the wheel, and its pend
    // and delay bits are gone.
    method Expire(t: Tcb, k: nat) returns (next: Tcb?)
      requires Linked() && k < |lists| && lists[k] != [] && lists[k][0] == t
      modifies `lists, `nodes, first, nbrEntries, nodes`tickNext, nodes`tickPrev
      modifies t`tickSpoke, t`tickRemain, t`tickCtrMatch, t`taskState
      ensures Linked()
      ensures lists == old(lists)[k := old(lists[k])[1..]] && nodes == old(nodes) - {t}
      ensures t.taskState == TaskState(old(t.taskState.susp), false, false)
      ensures t.tickSpoke == NO_SPOKE && t.tickNext == null && t.tickPrev == null
      ensures next == if |old(lists[k])| > 1 then old(lists[k])[1] else null
    {
      assert SpokeLinked(k) && LinkedAt(lists[k], 0, k);
      next := t.tickNext;
      t.taskState := TaskState(t.taskState.susp, false, false);
      ghost var l := lists[k];
      ghost var p := Unlink(t);
      t.tickRemain, t.tickCtrMatch := 0, 0;
      assert p == 0;
      assert RemoveAt(l, 0) == l[1..];
    }

    lemma SpokeFacts(k: nat)
      requires Linked() && k < |lists|
      ensures Elements(lists[k]) <= nodes && Distinct(lists[k])
      ensures first[k] == if lists[k] == [] then null else lists[k][0]
      ensures lists[k] != [] ==> lists[k][0] in nodes
    {
      assert SpokeLinked(k);
      assert lists[k] != [] ==> lists[k][0] in Elements(lists[k]);
    }

    // The state of an expired task: its pend and delay bits are gone, and so are its links.
    static ghost predicate Released(t: Tcb, was: TaskState)
      reads t
    {
      && t.taskState == TaskState(was.susp, false, false)
      && t.tickSpoke == NO_SPOKE && t.tickNext == null && t.tickPrev == null
    }

    ghost function States(): map<Tcb, TaskState>
      reads `nodes, nodes`taskState
    {
      map t | t in nodes :: t.taskState
    }

    // Spoke k, listing l when the scan began, after the first n entries have expired.
    ghost predicate Scanned(k: nat, l: seq<Tcb>, n: nat, was: seq<seq<Tcb>>, due: map<Tcb, Tick>,
        states: map<Tcb, TaskState>)
      requires n <= |l| && k < |was| && states.Keys == due.Keys
      reads this, first, nbrEntries, nodes, due.Keys
    {
      && Linked() && lists == was[k := l[n..]] && nodes == due.Keys - Elements(l[..n])
      && (forall x :: x in nodes ==> x.tickCtrMatch == due[x] && x.taskState == states[x])
      && (forall x :: x in due && x !in nodes ==> Released(x, states[x]))
      && (forall i :: 0 <= i < n ==> l[i] in due && due[l[i]] == ctr)
    }

    lemma OneLess(was: seq<seq<Tcb>>, k: nat, l: seq<Tcb>, n: nat)
      requires k < |was| && n < |l|
      ensures l[n..][1..] == l[n+1..] && Elements(l[..n+1]) == Elements(l[..n]) + {l[n]}
      ensures was[k := l[n..]][k := l[n+1..]] == was[k := l[n+1..]]
    {
      assert l[..n+1] == l[..n] + [l[n]];
    }

    // One turn of the scan: t, the first entry left on spoke k, expires or ends the scan.
    method Visit(t: Tcb, k: nat, ghost l: seq<Tcb>, ghost n: nat, ghost was: seq<seq<Tcb>>,
                 ghost due: map<Tcb, Tick>, ghost states: map<Tcb, TaskState>)
      returns (expired: bool, next: Tcb?)
      requires n < |l| && k < |was| && states.Keys == due.Keys && t == l[n] && t in due
      requires Scanned(k, l, n, was, due, states)
      modifies `lists, `nodes, first, nbrEntries, nodes`tickNext, nodes`tickPrev
      modifies t`tickSpoke, t`tickRemain, t`tickCtrMatch, t`taskState
      ensures expired <==> due[t] == ctr
      ensures expired ==> Scanned(k, l, n + 1, was, due, states) && next == if n + 1 < |l| then l[n+1] else null
      ensures !expired ==> Scanned(k, l, n, was, due, states)
      ensures nodes <= old(nodes)
    {
      hide SpokeLinked, Elements;
      SpokeFacts(k);
      next := null;
      t.tickRemain := Minus(t.tickCtrMatch, ctr);
      expired := ctr == t.tickCtrMatch;
      if expired {
        OneLess(was, k, l, n);
        next := Expire(t, k);
      }
    }

    lemma ScanFacts(k: nat, l: seq<Tcb>, was: seq<seq<Tcb>>, due: map<Tcb, Tick>, states: map<Tcb, TaskState>)
      requires k < |was| && states.Keys == due.Keys && Scanned(k, l, 0, was, due, states)
      ensures k < first.Length && first[k] == if l == [] then null else l[0]
      ensures forall i :: 0 <= i < |l| ==> l[i] in due
    {
      hide SpokeLinked, Released;
      SpokeFacts(k);
      assert forall i :: 0 <= i < |l| ==> l[i] == lists[k][i] && l[i] in Elements(lists[k]);
    }

    // The scan of spoke k: expire entry after entry until one is not due. (Every entry of a
    // spoke has the delay bit set; the cases of the source for the other states pass over
    // the entry.)
    method Scan(k: nat, ghost l: seq<Tcb>, ghost was: seq<seq<Tcb>>, ghost due: map<Tcb, Tick>,
        ghost states: map<Tcb, TaskState>)
      returns (out: seq<Tcb>)
      requires k < |was| && states.Keys == due.Keys == nodes && Scanned(k, l, 0, was, due, states)
      modifies `lists, `nodes, first, nbrEntries, nodes`tickNext, nodes`tickPrev
      modifies nodes`tickSpoke, nodes`tickRemain, nodes`tickCtrMatch, nodes`taskState
      ensures |out| <= |l| && out == l[..|out|] && Scanned(k, l, |out|, was, due, states)
      ensures |out| < |l| ==> l[|out|] in due && due[l[|out|]] != ctr
    {
      hide SpokeLinked, Linked, Released, Scanned;
      ScanFacts(k, l, was, due, states);
      var t, done := first[k], false;
      out := [];
      while !done
        invariant |out| <= |l| && out == l[..|out|] && t == if |out| < |l| then l[|out|] else null
        invariant Scanned(k, l, |out|, was, due, states) && nodes <= old(nodes)
        invariant done ==> |out| == |l| || due[l[|out|]] != ctr
        decreases |l| - |out|, !done
      {
        if t != null {
          var expired, next := Visit(t, k, l, |out|, was, due, states);
          if expired {
            TakeOneMore(l, |out|);
            out := out + [t];
            t := next;
          } else {
            done := true;
          }
        } else {
          done := true;
        }
      }
    }

    // OS_TickListUpdate: one tick. Returns the tasks whose time has come, in the order they
    // are met; a suspended one stays suspended, any other is made ready.
    method Update() returns (out: seq<Tcb>)
      requires Valid() && forall t :: t in nodes ==> t.taskState.dly
      modifies this, first, nbrEntries, nodes`tickNext, nodes`tickPrev
      modifies nodes`tickSpoke, nodes`tickRemain, nodes`tickCtrMatch, nodes`taskState
      ensures Valid()
      ensures (Abs(), out) == Spec.Update(old(Abs()))
      ensures forall t :: t in old(nodes) ==>
        (if t in out then Released(t, old(States())[t]) else t.taskState == old(States())[t])
    {
      hide Spec.Valid, SpokeLinked, Released, Scanned;
      ghost var w, states := Abs(), States();
      Spec.UpdateValid(w);
      ctr := Plus(ctr, 1);
      var k := SpokeOf(ctr, first.Length);
      ScanStart(k);
      assert Abs().due == w.due && States() == states;
      out := Scan(k, lists[k], w.spokes, w.due, states);
      ScanMeans(k, w.spokes[k], |out|, w.spokes, w.due, states);
    }

    lemma ScanStart(k: nat)
      requires Linked() && k < |lists|
      ensures Scanned(k, lists[k], 0, lists, Abs().due, States())
    {
      assert lists[k := lists[k][0..]] == lists;
    }

    lemma ScanMeans(k: nat, l: seq<Tcb>, n: nat, was: seq<seq<Tcb>>, due: map<Tcb, Tick>, states: map<Tcb, TaskState>)
      requires n <= |l| && k < |was| && states.Keys == due.Keys && Scanned(k, l, n, was, due, states)
      ensures Linked() && Abs() == Spec.Wheel(ctr, was[k := l[n..]], due - Elements(l[..n]))
      ensures forall t :: t in due ==> (if t in l[..n] then Released(t, states[t]) else t.taskState == states[t])
      ensures (n < |l| ==> l[n] in due && due[l[n]] != ctr) ==> n == Spec.Leading(due, ctr, l)
    {
    }
  }
}
