// The tick wheel as a value, the plain "scan every sleeper" table it stands for, and
// what the one guarantees about the other over whole runs (os_tick.c).

module TickWheelSpec {
  import opened Ticks
  import opened Lists

  // spokes[k] is the list of spoke k from FirstPtr on; due maps every linked task to its
  // TickCtrMatch.
  datatype Wheel<T(==)> = Wheel(ctr: Tick, spokes: seq<seq<T>>, due: map<T, Tick>)

  // ---------------------------------------------------------------- well-formedness

  // Every entry of spoke k is known and hashes to k.
  ghost predicate Hashed<T>(due: map<T, Tick>, n: nat, k: nat, l: seq<T>)
    requires n > 0
  {
    forall i :: 0 <= i < |l| ==> l[i] in due && SpokeOf(due[l[i]], n) == k
  }

  // The remaining times, counted modulo 2^32 from c, never decrease along the list.
  ghost predicate Sorted<T>(due: map<T, Tick>, c: Tick, l: seq<T>)
  {
    forall i, j :: 0 <= i < j < |l| && l[i] in due && l[j] in due ==> Minus(due[l[i]], c) <= Minus(due[l[j]], c)
  }

  ghost predicate SpokeOk<T>(due: map<T, Tick>, c: Tick, n: nat, k: nat, l: seq<T>)
    requires n > 0
  {
    Hashed(due, n, k, l) && Distinct(l) && Sorted(due, c, l)
  }

  ghost predicate Listed<T>(due: map<T, Tick>, spokes: seq<seq<T>>)
    requires |spokes| > 0
  {
    forall t :: t in due ==> t in spokes[SpokeOf(due[t], |spokes|)]
  }

  ghost predicate Valid<T>(w: Wheel<T>) {
    && |w.spokes| > 0
    && (forall k :: 0 <= k < |w.spokes| ==> SpokeOk(w.due, w.ctr, |w.spokes|, k, w.spokes[k]))
    && Listed(w.due, w.spokes)
    && w.ctr !in w.due.Values
  }

  lemma HasSpokes<T>(w: Wheel<T>)
    requires Valid(w)
    ensures |w.spokes| > 0
  {
  }

  // ---------------------------------------------------------------- operations

  // Where the search loop of OS_TickListInsert stops: in front of the first entry that
  // does not expire strictly earlier.
  function InsertPos<T(==)>(due: map<T, Tick>, c: Tick, l: seq<T>, r: Tick): (p: nat)
    ensures p <= |l|
    ensures forall i :: 0 <= i < p ==> l[i] in due && Minus(due[l[i]], c) < r
    ensures p < |l| && l[p] in due ==> r <= Minus(due[l[p]], c)
  {
    if l != [] && l[0] in due && r > Minus(due[l[0]], c) then 1 + InsertPos(due, c, l[1..], r) else 0
  }

  function Insert<T(==)>(w: Wheel<T>, t: T, d: Tick): (r: Wheel<T>)
    requires |w.spokes| > 0
    ensures |r.spokes| == |w.spokes| && r.ctr == w.ctr
  {
    var k := SpokeOf(d, |w.spokes|);
    var p := InsertPos(w.due, w.ctr, w.spokes[k], Minus(d, w.ctr));
    Wheel(w.ctr, w.spokes[k := InsertAt(w.spokes[k], p, t)], w.due[t := d])
  }

  function Remove<T(==)>(w: Wheel<T>, t: T): (r: Wheel<T>)
    requires |w.spokes| > 0
    ensures |r.spokes| == |w.spokes| && r.ctr == w.ctr && (t !in w.due ==> r == w)
  {
    if t in w.due then
      var k := SpokeOf(w.due[t], |w.spokes|);
      Wheel(w.ctr, w.spokes[k := Without(w.spokes[k], t)], w.due - {t})
    else w
  }

  // How many entries the scan of OS_TickListUpdate takes before it meets one whose match
  // value is not the counter.
  function Leading<T(==)>(due: map<T, Tick>, c: Tick, l: seq<T>): (n: nat)
    ensures n <= |l|
    ensures forall i :: 0 <= i < n ==> l[i] in due && due[l[i]] == c
    ensures n < |l| ==> !(l[n] in due && due[l[n]] == c)
  {
    if l != [] && l[0] in due && due[l[0]] == c then 1 + Leading(due, c, l[1..]) else 0
  }

  // One tick: bump the counter, release the leading entries of one spoke.
  function Update<T(==)>(w: Wheel<T>): (r: (Wheel<T>, seq<T>))
    requires |w.spokes| > 0
  {
    var c := Plus(w.ctr, 1);
    var k := SpokeOf(c, |w.spokes|);
    var n := Leading(w.due, c, w.spokes[k]);
    var out := w.spokes[k][..n];
    (Wheel(c, w.spokes[k := w.spokes[k][n..]], w.due - Elements(out)), out)
  }

  // ---------------------------------------------------------------- the plain table

  // What a wheel stands for: the ticks every sleeping task still has to wait.
  ghost function Sleepers<T>(w: Wheel<T>): map<T, nat> {
    map t | t in w.due :: Minus(w.due[t], w.ctr) as nat
  }

  // Scan every sleeper: the ones with one tick left go, the others count down.
  ghost function ScanAll<T>(s: map<T, nat>): map<T, nat> {
    map t | t in s && s[t] > 1 :: s[t] - 1
  }

  ghost function Due<T>(s: map<T, nat>): set<T> {
    set t | t in s && s[t] == 1
  }

  // t joins the one spoke that its match value names, behind whoever is due strictly earlier and in
  // front of everybody else.
  ghost predicate Placed<T>(w: Wheel<T>, w': Wheel<T>, t: T, d: Tick) {
    && |w.spokes| > 0 && w'.ctr == w.ctr && w'.due == w.due[t := d] && |w'.spokes| == |w.spokes|
    && forall j :: 0 <= j < |w.spokes| ==>
         if j == d % |w.spokes| then Between(w.due, w.ctr, w.spokes[j], w'.spokes[j], t, d)
         else w'.spokes[j] == w.spokes[j]
  }

  ghost predicate Between<T>(due: map<T, Tick>, c: Tick, l: seq<T>, l': seq<T>, t: T, d: Tick) {
    exists p :: 0 <= p <= |l| && l' == l[..p] + [t] + l[p..]
      && (forall i :: 0 <= i < p && l[i] in due ==> (due[l[i]] - c) % MODULUS < (d - c) % MODULUS)
      && (forall i :: p <= i < |l| && l[i] in due ==> (d - c) % MODULUS <= (due[l[i]] - c) % MODULUS)
  }

  lemma InsertPlaces<T>(w: Wheel<T>, t: T, d: Tick)
    requires Valid(w)
    ensures Placed(w, Insert(w, t, d), t, d)
  {
    var k := SpokeOf(d, |w.spokes|);
    assert SpokeOk(w.due, w.ctr, |w.spokes|, k, w.spokes[k]);
    hide Valid, InsertPos;
    InsertsBetween(w.due, w.ctr, w.spokes[k], t, d);
  }

  lemma InsertsBetween<T>(due: map<T, Tick>, c: Tick, l: seq<T>, t: T, d: Tick)
    requires Sorted(due, c, l) && forall i :: 0 <= i < |l| ==> l[i] in due
    ensures Between(due, c, l, InsertAt(l, InsertPos(due, c, l, Minus(d, c)), t), t, d)
  {
    var p := InsertPos(due, c, l, Minus(d, c));
    forall i | p <= i < |l|
      ensures Minus(d, c) <= Minus(due[l[i]], c)
    {
      if i > p { assert Minus(due[l[p]], c) <= Minus(due[l[i]], c); }
    }
  }

  // ---------------------------------------------------------------- one spoke

  lemma InsertSpoke<T>(due: map<T, Tick>, c: Tick, n: nat, k: nat, l: seq<T>, t: T, d: Tick)
    requires n > 0 && SpokeOk(due, c, n, k, l) && t !in due && SpokeOf(d, n) == k
    ensures SpokeOk(due[t := d], c, n, k, InsertAt(l, InsertPos(due, c, l, Minus(d, c)), t))
  {
    var p := InsertPos(due, c, l, Minus(d, c));
    InsertAtDistinct(l, p, t);
    InsertKeepsOrder(due, c, l, t, d, p);
  }

  lemma InsertKeepsOrder<T>(due: map<T, Tick>, c: Tick, l: seq<T>, t: T, d: Tick, p: nat)
    requires Sorted(due, c, l) && t !in due && p <= |l|
    requires forall i :: 0 <= i < |l| ==> l[i] in due
    requires forall i :: 0 <= i < p ==> Minus(due[l[i]], c) < Minus(d, c)
    requires p < |l| ==> Minus(d, c) <= Minus(due[l[p]], c)
    ensures Sorted(due[t := d], c, InsertAt(l, p, t))
  {
    var l' := InsertAt(l, p, t);
    var due' := due[t := d];
    forall i, j | 0 <= i < j < |l'|
      ensures Minus(due'[l'[i]], c) <= Minus(due'[l'[j]], c)
    {
      if i == p && p + 1 < j { assert Minus(due[l[p]], c) <= Minus(due[l[j-1]], c); }
    }
  }

  // A spoke that does not list t is indifferent to t's match value.
  lemma OtherSpoke<T>(due: map<T, Tick>, due': map<T, Tick>, c: Tick, n: nat, k: nat, l: seq<T>)
    requires n > 0 && SpokeOk(due, c, n, k, l)
    requires forall i :: 0 <= i < |l| ==> l[i] in due' && due'[l[i]] == due[l[i]]
    ensures SpokeOk(due', c, n, k, l)
  {
  }

  lemma RemoveSpoke<T>(due: map<T, Tick>, c: Tick, n: nat, k: nat, l: seq<T>, p: nat)
    requires n > 0 && SpokeOk(due, c, n, k, l) && p < |l|
    ensures Without(l, l[p]) == RemoveAt(l, p)
    ensures SpokeOk(due - {l[p]}, c, n, k, RemoveAt(l, p))
  {
    hide Hashed, Distinct, Sorted, RemoveAt, Without;
    WithoutIsRemoveAt(l, p);
    RemoveAtMembers(l, p);
    RemoveAtKeepsOrder(due, c, l, p);
    RemoveAtHashed(due, n, k, l, p);
  }

  lemma RemoveAtHashed<T>(due: map<T, Tick>, n: nat, k: nat, l: seq<T>, p: nat)
    requires n > 0 && Hashed(due, n, k, l) && Distinct(l) && p < |l|
    ensures Hashed(due - {l[p]}, n, k, RemoveAt(l, p))
  {
    hide Distinct, RemoveAt;
    RemoveAtMembers(l, p);
    forall t | t in RemoveAt(l, p)
      ensures t in due && t != l[p] && SpokeOf(due[t], n) == k
    {
      assert t in Elements(RemoveAt(l, p));
    }
  }

  lemma RemoveAtKeepsOrder<T>(due: map<T, Tick>, c: Tick, l: seq<T>, p: nat)
    requires Sorted(due, c, l) && p < |l|
    ensures Sorted(due - {l[p]}, c, RemoveAt(l, p))
  {
    var l' := RemoveAt(l, p);
    assert forall i :: 0 <= i < |l'| ==> l'[i] == if i < p then l[i] else l[i+1];
  }

  // Advancing the counter by one keeps a spoke in order once its due entries are gone.
  lemma AdvanceSpoke<T>(due: map<T, Tick>, due': map<T, Tick>, c: Tick, n: nat, k: nat, l: seq<T>)
    requires n > 0 && SpokeOk(due, c, n, k, l) && c !in due.Values
    requires forall i :: 0 <= i < |l| ==> l[i] in due' && due'[l[i]] == due[l[i]] && due[l[i]] != Plus(c, 1)
    ensures SpokeOk(due', Plus(c, 1), n, k, l)
  {
    forall i | 0 <= i < |l|
      ensures Minus(due[l[i]], Plus(c, 1)) == Minus(due[l[i]], c) - 1
    {
      assert due[l[i]] in due.Values;
    }
  }

  // ---------------------------------------------------------------- one operation

  // Inserting a task: the wheel stays well formed, and the task sleeps for exactly the
  // wrapped difference; nobody else is disturbed.
  lemma InsertRefines<T>(w: Wheel<T>, t: T, d: Tick)
    requires Valid(w) && t !in w.due && d != w.ctr
    ensures Valid(Insert(w, t, d))
    ensures Sleepers(Insert(w, t, d)) == Sleepers(w)[t := Minus(d, w.ctr)]
  {
    hide Sorted, Hashed, Distinct, InsertAt, InsertPos;
    var n := |w.spokes|;
    var w' := Insert(w, t, d);
    var k0 := SpokeOf(d, n);
    forall k | 0 <= k < n
      ensures SpokeOk(w'.due, w.ctr, n, k, w'.spokes[k])
    {
      if k == k0 {
        InsertSpoke(w.due, w.ctr, n, k0, w.spokes[k0], t, d);
      } else {
        StillThere(w.due, n, k, w.spokes[k], t, d);
        OtherSpoke(w.due, w'.due, w.ctr, n, k, w.spokes[k]);
      }
    }
    InsertAtMembers(w.spokes[k0], InsertPos(w.due, w.ctr, w.spokes[k0], Minus(d, w.ctr)), t);
  }

  lemma StillThere<T>(due: map<T, Tick>, n: nat, k: nat, l: seq<T>, t: T, d: Tick)
    requires n > 0 && Hashed(due, n, k, l) && t !in due
    ensures forall i :: 0 <= i < |l| ==> l[i] in due[t := d] && due[t := d][l[i]] == due[l[i]]
  {
  }

  lemma RemoveRefines<T>(w: Wheel<T>, t: T)
    requires Valid(w)
    ensures Valid(Remove(w, t))
    ensures Sleepers(Remove(w, t)) == Sleepers(w) - {t}
  {
    if t in w.due {
      var n := |w.spokes|;
      var w' := Remove(w, t);
      var k0 := SpokeOf(w.due[t], n);
      var p :| 0 <= p < |w.spokes[k0]| && w.spokes[k0][p] == t;
      forall k | 0 <= k < n
        ensures SpokeOk(w'.due, w.ctr, n, k, w'.spokes[k])
      {
        if k == k0 {
          RemoveSpoke(w.due, w.ctr, n, k0, w.spokes[k0], p);
        } else {
          OtherSpoke(w.due, w'.due, w.ctr, n, k, w.spokes[k]);
        }
      }
      assert forall x :: x in w'.due.Values ==> x in w.due.Values;
    }
  }

  lemma InFrontOfDue<T>(due: map<T, Tick>, c: Tick, l: seq<T>, i: nat)
    requires Sorted(due, c, l) && i < |l| && c !in due.Values
    requires forall j :: 0 <= j < |l| ==> l[j] in due
    requires due[l[i]] == Plus(c, 1)
    ensures forall j :: 0 <= j <= i ==> due[l[j]] == Plus(c, 1)
  {
    forall j | 0 <= j < i
      ensures due[l[j]] == Plus(c, 1)
    {
      assert due[l[j]] in due.Values;
      assert Minus(due[l[j]], c) <= Minus(due[l[i]], c);
    }
  }

  // The early stop of the scan is justified by the order of the spoke: nothing further
  // down the list, and nothing in any other spoke, is due.
  lemma ScanStopsRight<T>(w: Wheel<T>, t: T)
    requires Valid(w)
    ensures t in Update(w).1 <==> t in w.due && w.due[t] == Plus(w.ctr, 1)
  {
    var c := Plus(w.ctr, 1);
    var l := w.spokes[SpokeOf(c, |w.spokes|)];
    var n := Leading(w.due, c, l);
    if t in w.due && w.due[t] == c {
      var i :| 0 <= i < |l| && l[i] == t;
      InFrontOfDue(w.due, w.ctr, l, i);
      assert i < n;
      assert l[..n][i] == t;
    }
  }

  lemma UpdateSpokes<T>(w: Wheel<T>, k: nat)
    requires Valid(w) && k < |w.spokes|
    ensures var w' := Update(w).0; SpokeOk(w'.due, w'.ctr, |w.spokes|, k, w'.spokes[k])
  {
    var (w', out) := Update(w);
    var c := Plus(w.ctr, 1);
    var l := w.spokes[k];
    if k == SpokeOf(c, |w.spokes|) {
      var n := Leading(w.due, c, l);
      assert SpokeOk(w.due, w.ctr, |w.spokes|, k, l[n..]);
      forall i | 0 <= i < |l[n..]|
        ensures l[n..][i] !in out
      {
        assert l[n..][i] == l[n + i];
      }
      forall i | 0 <= i < |l[n..]|
        ensures w.due[l[n..][i]] != c
      {
        ScanStopsRight(w, l[n..][i]);
      }
      AdvanceSpoke(w.due, w'.due, w.ctr, |w.spokes|, k, l[n..]);
    } else {
      forall i | 0 <= i < |l|
        ensures l[i] !in out && w.due[l[i]] != c
      {
        ScanStopsRight(w, l[i]);
      }
      AdvanceSpoke(w.due, w'.due, w.ctr, |w.spokes|, k, l);
    }
  }

  lemma UpdateListed<T>(w: Wheel<T>)
    requires Valid(w)
    ensures var w' := Update(w).0; Listed(w'.due, w'.spokes)
  {
    var (w', out) := Update(w);
    var k0 := SpokeOf(w'.ctr, |w.spokes|);
    var l := w.spokes[k0];
    var n := Leading(w.due, w'.ctr, l);
    forall t | t in w'.due
      ensures t in w'.spokes[SpokeOf(w'.due[t], |w.spokes|)]
    {
      if SpokeOf(w.due[t], |w.spokes|) == k0 {
        var i :| 0 <= i < |l| && l[i] == t;
        assert forall j :: 0 <= j < n ==> out[j] == l[j];
        assert n <= i;
        assert l[n..][i - n] == t;
      }
    }
  }

  lemma UpdateValid<T>(w: Wheel<T>)
    requires Valid(w)
    ensures Valid(Update(w).0)
  {
    var (w', out) := Update(w);
    forall k | 0 <= k < |w.spokes|
      ensures SpokeOk(w'.due, w'.ctr, |w.spokes|, k, w'.spokes[k])
    {
      UpdateSpokes(w, k);
    }
    UpdateListed(w);
    forall t | t in w'.due
      ensures w'.due[t] != w'.ctr
    {
      ScanStopsRight(w, t);
    }
  }

  lemma TickOf<T>(w: Wheel<T>, t: T)
    requires Valid(w) && t in w.due
    ensures t in Update(w).1 <==> Minus(w.due[t], w.ctr) == 1
    ensures t !in Update(w).1 ==>
      Minus(w.due[t], w.ctr) > 1 && Minus(w.due[t], Plus(w.ctr, 1)) == Minus(w.due[t], w.ctr) - 1
  {
    ScanStopsRight(w, t);
    assert w.due[t] in w.due.Values;
  }

  lemma UpdateReleases<T>(w: Wheel<T>)
    requires Valid(w)
    ensures Elements(Update(w).1) == Due(Sleepers(w))
  {
    forall t | t in Update(w).1
      ensures t in w.due
    {
      ScanStopsRight(w, t);
    }
    forall t | t in w.due
      ensures t in Update(w).1 <==> Sleepers(w)[t] == 1
    {
      TickOf(w, t);
    }
  }

  lemma UpdateScans<T>(w: Wheel<T>)
    requires Valid(w)
    ensures Sleepers(Update(w).0) == ScanAll(Sleepers(w))
  {
    forall t | t in w.due
      ensures t in Update(w).0.due <==> Sleepers(w)[t] > 1
      ensures t in Update(w).0.due ==> Sleepers(Update(w).0)[t] == Sleepers(w)[t] - 1
    {
      TickOf(w, t);
    }
  }

  // One tick of the wheel is one scan of the whole table: same survivors, same releases,
  // each release once.
  lemma UpdateRefines<T>(w: Wheel<T>)
    requires Valid(w)
    ensures Valid(Update(w).0) && Distinct(Update(w).1)
    ensures Sleepers(Update(w).0) == ScanAll(Sleepers(w))
    ensures Elements(Update(w).1) == Due(Sleepers(w))
  {
    UpdateValid(w);
    UpdateScans(w);
    UpdateReleases(w);
    assert Distinct(w.spokes[SpokeOf(Plus(w.ctr, 1), |w.spokes|)]);
  }
}
