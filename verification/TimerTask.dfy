// The timer wheel and the timer task of os_tmr.c, updating timers in place. A spoke is the
// sequence of the timers chained from its FirstPtr.

module TimerTask {
  import opened Ticks
  import opened Lists
  import opened TickWheelSpec
  import opened TimerRuns

  datatype TimerState = Stopped | Running | Completed

  class Timer {
    const config: Config
    var state: TimerState
    var due: Tick
    var remain: Tick

    // OSTmrCreate, for the arguments it accepts.
    constructor (config: Config)
      requires Accepted(config)
      ensures this.config == config && state == Stopped && due == 0 && remain == 0
    {
      this.config := config;
      state, due, remain := Stopped, 0, 0;
    }
  }

  // ---------------------------------------------------------------- the middle of a pass

  ghost function AllDue(e: seq<Timer>, c: Tick): map<Timer, Tick> {
    map t | t in e :: c
  }

  // The wheel w with the timers of e, all due now, still in front of the current spoke.
  ghost function Ahead(w: Wheel<Timer>, e: seq<Timer>): Wheel<Timer>
    requires |w.spokes| > 0
  {
    var k := SpokeOf(w.ctr, |w.spokes|);
    Wheel(w.ctr, w.spokes[k := e + w.spokes[k]], w.due + AllDue(e, w.ctr))
  }

  lemma AheadAtStart(w: Wheel<Timer>)
    requires Valid(w)
    ensures Wheel(Plus(w.ctr, 1), w.spokes, w.due) == Ahead(Update(w).0, Update(w).1)
  {
    var (w1, e) := Update(w);
    var k := SpokeOf(w1.ctr, |w.spokes|);
    assert e + w1.spokes[k] == w.spokes[k];
    assert w.spokes == w1.spokes[k := e + w1.spokes[k]];
    DueAtStart(w);
  }

  lemma DueAtStart(w: Wheel<Timer>)
    requires Valid(w)
    ensures var (w1, e) := Update(w); w.due == w1.due + AllDue(e, w1.ctr)
  {
    var (w1, e) := Update(w);
    forall t | t in e
      ensures t in w.due && w.due[t] == w1.ctr
    {
      ScanStopsRight(w, t);
    }
    hide Valid;
    var m := w1.due + AllDue(e, w1.ctr);
    assert forall t :: t in w.due.Keys ==> (t in e || t in w1.due) && m[t] == w.due[t];
  }

  lemma AheadDropsHead(w: Wheel<Timer>, e: seq<Timer>)
    requires Valid(w) && Distinct(e) && e != [] && forall t :: t in e ==> t !in w.due
    ensures Remove(Ahead(w, e), e[0]) == Ahead(w, e[1..])
  {
    hide Valid, Without, Distinct;
    NotOnSpoke(w, e[0]);
    DropFirst(e, w.spokes[SpokeOf(w.ctr, |w.spokes|)]);
    DropDue(w.due, e, w.ctr);
  }

  lemma NotOnSpoke(w: Wheel<Timer>, t: Timer)
    requires Valid(w) && t !in w.due
    ensures var k := SpokeOf(w.ctr, |w.spokes|); k < |w.spokes| && t !in w.spokes[k]
  {
    var k := SpokeOf(w.ctr, |w.spokes|);
    assert SpokeOk(w.due, w.ctr, |w.spokes|, k, w.spokes[k]);
  }

  lemma DropFirst(e: seq<Timer>, l: seq<Timer>)
    requires Distinct(e) && e != [] && e[0] !in l
    ensures Without(e + l, e[0]) == e[1..] + l
  {
    assert (e + l)[0] == e[0] && (e + l)[1..] == e[1..] + l;
    assert e[0] !in e[1..];
  }

  lemma DropDue(due: map<Timer, Tick>, e: seq<Timer>, c: Tick)
    requires Distinct(e) && e != [] && e[0] !in due
    ensures due + AllDue(e, c) - {e[0]} == due + AllDue(e[1..], c)
  {
    assert e == [e[0]] + e[1..];
  }

  lemma {:induction false} PosBehind(due: map<Timer, Tick>, due': map<Timer, Tick>, c: Tick, e: seq<Timer>,
      l: seq<Timer>, r: Tick)
    requires r > 0
    requires forall t :: t in e ==> t in due' && due'[t] == c
    requires forall t :: t in l ==> t in due && t in due' && due'[t] == due[t]
    ensures InsertPos(due', c, e + l, r) == |e| + InsertPos(due, c, l, r)
    decreases |e| + |l|
  {
    if e != [] {
      assert (e + l)[1..] == e[1..] + l;
      PosBehind(due, due', c, e[1..], l, r);
    } else {
      assert e + l == l;
      if l != [] { PosBehind(due, due', c, e, l[1..], r); assert e + l[1..] == l[1..]; }
    }
  }

  lemma AheadPos(w: Wheel<Timer>, e: seq<Timer>, j: nat, r: Tick)
    requires Valid(w) && r > 0 && j < |w.spokes| && forall x :: x in e ==> x !in w.due
    ensures var a := Ahead(w, e);
      InsertPos(a.due, w.ctr, a.spokes[j], r) ==
      (if j == SpokeOf(w.ctr, |w.spokes|) then |e| else 0) + InsertPos(w.due, w.ctr, w.spokes[j], r)
  {
    var a, l := Ahead(w, e), w.spokes[j];
    assert forall x :: x in l ==> x in w.due by {
      assert SpokeOk(w.due, w.ctr, |w.spokes|, j, l);
    }
    hide Valid;
    if j == SpokeOf(w.ctr, |w.spokes|) {
      PosBehind(w.due, a.due, w.ctr, e, l, r);
    } else {
      PosBehind(w.due, a.due, w.ctr, [], l, r);
      assert [] + l == l;
    }
  }

  lemma SpokesCommute(s: seq<seq<Timer>>, e: seq<Timer>, k: nat, j: nat, p: nat, t: Timer)
    requires k < |s| && j < |s| && p <= |s[j]|
    ensures var s' := s[k := e + s[k]]; var q := if j == k then |e| + p else p;
      s'[j := InsertAt(s'[j], q, t)] == s[j := InsertAt(s[j], p, t)][k := e + s[j := InsertAt(s[j], p, t)][k]]
  {
    if j == k { InsertBehind(e, s[j], p, t); }
  }

  lemma AheadInsertsSpokes(w: Wheel<Timer>, e: seq<Timer>, t: Timer, d: Tick)
    requires Valid(w) && d != w.ctr && forall x :: x in e ==> x !in w.due
    ensures Insert(Ahead(w, e), t, d).spokes == Ahead(Insert(w, t, d), e).spokes
  {
    hide Valid, InsertPos, InsertAt, AllDue, SpokeOf, Minus;
    HasSpokes(w);
    var k, j, r := SpokeOf(w.ctr, |w.spokes|), SpokeOf(d, |w.spokes|), Minus(d, w.ctr);
    AheadPos(w, e, j, r);
    var s, p := w.spokes, InsertPos(w.due, w.ctr, w.spokes[j], r);
    var s' := s[k := e + s[k]];
    var q := if j == k then |e| + p else p;
    assert Insert(Ahead(w, e), t, d).spokes == s'[j := InsertAt(s'[j], q, t)];
    SpokesCommute(s, e, k, j, p, t);
  }

  // Linking a timer that is due later does not touch the ones still due in this pass, even
  // when it lands on the spoke being scanned.
  lemma AheadInserts(w: Wheel<Timer>, e: seq<Timer>, t: Timer, d: Tick)
    requires Valid(w) && d != w.ctr && t !in e && forall x :: x in e ==> x !in w.due
    ensures Insert(Ahead(w, e), t, d) == Ahead(Insert(w, t, d), e)
  {
    AheadInsertsSpokes(w, e, t, d);
    assert Insert(Ahead(w, e), t, d).due == Ahead(Insert(w, t, d), e).due by {
      hide Valid, InsertPos, InsertAt, AllDue, SpokeOf, Minus;
      DueCommutes(w.due, e, w.ctr, t, d);
    }
    hide Valid;
  }

  lemma AheadInsertsValid(w: Wheel<Timer>, e: seq<Timer>, t: Timer, d: Tick)
    requires Valid(w) && d != w.ctr && t !in e && t !in w.due && forall x :: x in e ==> x !in w.due
    ensures Insert(Ahead(w, e), t, d) == Ahead(Insert(w, t, d), e)
    ensures Valid(Insert(w, t, d)) && Insert(w, t, d).ctr == w.ctr && forall x :: x in e ==> x !in Insert(w, t, d).due
  {
    AheadInserts(w, e, t, d);
    InsertRefines(w, t, d);
    hide Valid, Ahead;
  }

  lemma DueCommutes(due: map<Timer, Tick>, e: seq<Timer>, c: Tick, t: Timer, d: Tick)
    requires t !in e
    ensures due[t := d] + AllDue(e, c) == (due + AllDue(e, c))[t := d]
  {
  }

  lemma InsertBehind(e: seq<Timer>, l: seq<Timer>, p: nat, t: Timer)
    requires p <= |l|
    ensures InsertAt(e + l, |e| + p, t) == e + InsertAt(l, p, t)
  {
  }

  lemma {:induction false} RearmOneMore(w: Wheel<Timer>, cfg: map<Timer, Config>, l: seq<Timer>, t: Timer)
    requires |w.spokes| > 0
    ensures Rearm(w, cfg, l + [t]) == Rearm(Rearm(w, cfg, l), cfg, [t])
    decreases |l|
  {
    if l == [] {
      assert l + [t] == [t];
    } else {
      assert (l + [t])[1..] == l[1..] + [t];
      if l[0] in cfg && cfg[l[0]].Cyclic? {
        RearmOneMore(Insert(w, l[0], Plus(w.ctr, cfg[l[0]].period)), cfg, l[1..], t);
      } else {
        RearmOneMore(w, cfg, l[1..], t);
      }
    }
  }

  // ---------------------------------------------------------------- the wheel in place

  // The timer after t on a list: its NextPtr.
  function NextOf(l: seq<Timer>, t: Timer): (n: Timer?)
  {
    if |l| < 2 then null else if l[0] == t then l[1] else NextOf(l[1..], t)
  }

  class TimerWheel {
    var ctr: Tick
    var spokes: seq<seq<Timer>>
    ghost var linked: set<Timer>

    // OS_TmrInit: empty spokes.
    constructor (size: nat)
      requires size > 0
      ensures Valid() && linked == {} && ctr == 0 && |spokes| == size
    {
      ctr := 0;
      spokes := seq(size, _ => []);
      linked := {};
    }

    ghost function Abs(): Wheel<Timer>
      reads this, linked`due
    {
      Wheel(ctr, spokes, map t | t in linked :: t.due)
    }

    ghost predicate Valid()
      reads this, linked`due, linked`state
    {
      TimerRunsValid() && forall t :: t in linked ==> t.state == Running && Accepted(t.config)
    }

    ghost predicate TimerRunsValid()
      reads this, linked`due
    {
      TickWheelSpec.Valid(Abs())
    }

    // The search loop of OS_TmrLink, refreshing the remaining time of the timers it meets.
    method Search(l: seq<Timer>, r: Tick) returns (p: nat)
      requires forall t :: t in l ==> t in linked
      modifies linked`remain
      ensures p == InsertPos(Abs().due, ctr, l, r)
    {
      hide InsertPos;
      p := 0;
      ghost var due := Abs().due;
      while p < |l|
        invariant p <= |l|
        invariant forall i :: 0 <= i < p ==> r > Minus(due[l[i]], ctr)
      {
        l[p].remain := Minus(l[p].due, ctr);
        if r <= l[p].remain {
          return;
        }
        p := p + 1;
      }
    }

    // OS_TmrLink: due one delay (or period) from now, in order of expiry.
    method Link(t: Timer, periodic: bool)
      requires |spokes| > 0 && t !in linked && Accepted(t.config)
      requires periodic ==> t.config.Cyclic?
      requires forall k, x :: 0 <= k < |spokes| && x in spokes[k] ==> x in linked
      modifies this`spokes, this`linked, t`state, t`due, t`remain, linked`remain
      ensures t.state == Running && linked == old(linked) + {t}
      ensures t.due == Plus(ctr, if periodic then t.config.period else First(t.config))
      ensures Abs() == Insert(old(Abs()), t, t.due)
    {
      hide InsertPos;
      Aim(t, periodic);
      Hang(t);
    }

    // The match value, and the remaining time.
    method Aim(t: Timer, periodic: bool)
      requires Accepted(t.config) && (periodic ==> t.config.Cyclic?)
      modifies t`state, t`due, t`remain
      ensures t.state == Running && t.due == Plus(ctr, if periodic then t.config.period else First(t.config))
      ensures t.remain == Minus(t.due, ctr)
    {
      t.state := Running;
      if periodic {
        t.due := Plus(t.config.period, ctr);
      } else if t.config.dly == 0 {
        t.due := Plus(t.config.period, ctr);
      } else {
        t.due := Plus(t.config.dly, ctr);
      }
      t.remain := Minus(t.due, ctr);
    }

    method Hang(t: Timer)
      requires |spokes| > 0 && t !in linked && t.remain == Minus(t.due, ctr)
      requires forall k, x :: 0 <= k < |spokes| && x in spokes[k] ==> x in linked
      modifies this`spokes, this`linked, linked`remain
      ensures linked == old(linked) + {t} && Abs() == Insert(old(Abs()), t, t.due)
    {
      hide InsertPos;
      var k := SpokeOf(t.due, |spokes|);
      var p := Search(spokes[k], t.remain);
      spokes := spokes[k := InsertAt(spokes[k], p, t)];
      linked := linked + {t};
      assert Abs().due == old(Abs()).due[t := t.due];
    }

    // OS_TmrUnlink: the spoke is recomputed from the match value.
    method Unlink(t: Timer)
      requires |spokes| > 0 && t in linked
      modifies this`spokes, this`linked, t`state
      ensures t.state == Stopped && linked == old(linked) - {t}
      ensures Abs() == Remove(old(Abs()), t)
    {
      var k := SpokeOf(t.due, |spokes|);
      spokes := spokes[k := Without(spokes[k], t)];
      t.state := Stopped;
      linked := linked - {t};
      assert Abs().due == old(Abs()).due - {t};
    }

    // OSTmrStart: a running timer is taken off the wheel first.
    method Start(t: Timer)
      requires Valid() && Accepted(t.config) && (t.state == Running <==> t in linked)
      modifies this`spokes, this`linked, t`state, t`due, t`remain, linked`remain
      ensures Valid() && linked == old(linked) + {t} && t.state == Running
      ensures t.due == Plus(ctr, First(t.config))
      ensures Abs() == Insert(Remove(old(Abs()), t), t, t.due)
    {
      hide TickWheelSpec.Valid, Insert, Remove;
      RemoveRefines(Abs(), t);
      InsertRefines(Remove(Abs(), t), t, Plus(ctr, First(t.config)));
      if t.state == Running {
        Unlink(t);
      }
      AllLinked();
      Link(t, false);
    }

    // OSTmrStop: a timer that is not running is left as it is.
    method Stop(t: Timer)
      requires Valid() && (t.state == Running <==> t in linked)
      modifies this`spokes, this`linked, t`state
      ensures Valid() && linked == old(linked) - {t}
      ensures t.state == if old(t.state) == Running then Stopped else old(t.state)
      ensures Abs() == Remove(old(Abs()), t)
    {
      RemoveRefines(Abs(), t);
      if t.state == Running {
        Unlink(t);
      }
    }

    // OSTmrRemainGet.
    method RemainGet(t: Timer) returns (r: Tick)
      requires Valid() && (t.state == Running <==> t in linked)
      modifies t`remain
      ensures Valid()
      ensures t.state == Running ==> r as nat == Sleepers(Abs())[t] && t.remain == r
      ensures t.state == Stopped ==> r == First(t.config) && t.remain == r
      ensures t.state == Completed ==> r == 0
    {
      match t.state
      case Running =>
        r := Minus(t.due, ctr);
        t.remain := r;
      case Stopped =>
        if t.config.Cyclic? {
          r := if t.config.dly == 0 then t.config.period else t.config.dly;
        } else {
          r := t.config.dly;
        }
        t.remain := r;
      case Completed =>
        r := 0;
    }

    lemma AllLinked()
      requires TickWheelSpec.Valid(Abs())
      ensures forall k, x :: 0 <= k < |spokes| && x in spokes[k] ==> x in linked
    {
      forall k, x | 0 <= k < |spokes| && x in spokes[k]
        ensures x in linked
      {
        assert SpokeOk(Abs().due, ctr, |spokes|, k, spokes[k]);
      }
    }

    ghost function Configs(): map<Timer, Config>
      reads `linked
    {
      map t | t in linked :: t.config
    }

    // The wheel in the middle of a pass: w as the timers fired so far leave it, e still due.
    ghost predicate MidPass(w: Wheel<Timer>, e: seq<Timer>)
      reads this, linked`due, linked`state
    {
      && TickWheelSpec.Valid(w) && Distinct(e) && (forall t :: t in e ==> t !in w.due)
      && Abs() == Ahead(w, e)
      && forall t :: t in linked ==> t.state == Running && Accepted(t.config)
    }

    lemma AllLinkedMidPass(w: Wheel<Timer>, e: seq<Timer>)
      requires MidPass(w, e)
      ensures |spokes| > 0
      ensures forall k, x :: 0 <= k < |spokes| && x in spokes[k] ==> x in linked
    {
      forall j, x | 0 <= j < |spokes| && x in spokes[j]
        ensures x in linked
      {
        assert x in e ==> x in AllDue(e, ctr);
        assert SpokeOk(w.due, ctr, |spokes|, j, w.spokes[j]);
      }
    }

    // The first half of an expiry: off the wheel.
    method TakeOff(t: Timer, ghost w: Wheel<Timer>, ghost e: seq<Timer>)
      requires MidPass(w, e) && e != [] && e[0] == t && t in linked
      modifies this`spokes, this`linked, t`state
      ensures MidPass(w, e[1..]) && linked == old(linked) - {t} && t.state == Stopped
    {
      AheadDropsHead(w, e);
      hide TickWheelSpec.Valid, Remove, Ahead;
      assert |spokes| > 0 by { AllLinkedMidPass(w, e); }
      Unlink(t);
    }

    // The second half of the expiry of a periodic timer: back on it, one period later.
    method PutBack(t: Timer, ghost w: Wheel<Timer>, ghost e: seq<Timer>)
      requires MidPass(w, e) && t !in linked && t !in e && Accepted(t.config) && t.config.Cyclic?
      modifies this`spokes, this`linked, t`state, t`due, t`remain, linked`remain
      ensures MidPass(Insert(w, t, Plus(ctr, t.config.period)), e) && linked == old(linked) + {t} && t.state == Running
    {
      assert t !in Ahead(w, e).due;
      AheadInsertsValid(w, e, t, Plus(ctr, t.config.period));
      AllLinkedMidPass(w, e);
      hide TickWheelSpec.Valid, Insert, Ahead, Distinct, SpokeOf, First;
      Link(t, true);
    }

    // One turn of the loop of OS_TmrTask: `next` is the NextPtr saved before t is unlinked.
    method Visit(t: Timer, ghost w: Wheel<Timer>, ghost e: seq<Timer>, ghost cfg: map<Timer, Config>)
      returns (next: Timer?)
      requires MidPass(w, e) && e != [] && e[0] == t && t in cfg && cfg[t] == t.config
      modifies this`spokes, this`linked, t`state, t`due, t`remain, linked`remain
      ensures MidPass(Rearm(w, cfg, [t]), e[1..])
      ensures if |e| > 1 then next == e[1] else next != null ==> next in linked && next.due != ctr
      ensures linked == if t.config.Cyclic? then old(linked) else old(linked) - {t}
      ensures t.state == if t.config.Cyclic? then Running else Completed
    {
      hide MidPass, Insert, NextOf, SpokeOf;
      NextFacts(w, e);
      next := NextOf(spokes[SpokeOf(ctr, |spokes|)], t);
      assert [t][1..] == [];
      TakeOff(t, w, e);
      if t.config.Cyclic? {
        PutBack(t, w, e[1..]);
      } else {
        t.state := Completed;
      }
    }

    lemma NextFacts(w: Wheel<Timer>, e: seq<Timer>)
      requires MidPass(w, e) && e != []
      ensures |spokes| > 0 && |w.spokes| > 0 && w.ctr == ctr && e[0] in linked && e[0].due == ctr
        && Accepted(e[0].config) && e[0] !in e[1..]
      ensures var n := NextOf(spokes[SpokeOf(ctr, |spokes|)], e[0]);
        if |e| > 1 then n == e[1] else n != null ==> n in linked && n.due != ctr
    {
      var k := SpokeOf(ctr, |spokes|);
      assert e[0] in AllDue(e, ctr);
      assert spokes[k] == e + w.spokes[k];
      if |e| == 1 && w.spokes[k] != [] {
        assert SpokeOk(w.due, ctr, |spokes|, k, w.spokes[k]);
        assert w.due[w.spokes[k][0]] in w.due.Values;
      }
    }

    static ghost function OneShots(l: seq<Timer>): set<Timer> {
      set t | t in l && t.config.OneShot?
    }

    // A pass over the due timers e, begun on the wheel w and the timers `was`, after n of them.
    ghost predicate Halfway(w: Wheel<Timer>, e: seq<Timer>, n: nat, cfg: map<Timer, Config>, was: set<Timer>)
      requires n <= |e| && |w.spokes| > 0
      reads this, linked`due, linked`state, Elements(e)`state
    {
      && MidPass(Rearm(w, cfg, e[..n]), e[n..])
      && linked == was - OneShots(e[..n])
      && forall t :: t in e[..n] ==> t.state == if t.config.Cyclic? then Running else Completed
    }

    method Turn(t: Timer, ghost w: Wheel<Timer>, ghost e: seq<Timer>, ghost n: nat, ghost cfg: map<Timer, Config>,
        ghost was: set<Timer>)
      returns (next: Timer?)
      requires n < |e| && |w.spokes| > 0 && t == e[n] && t in cfg && cfg[t] == t.config && Distinct(e)
      requires Halfway(w, e, n, cfg, was)
      modifies this`spokes, this`linked, t`state, t`due, t`remain, linked`remain
      ensures Halfway(w, e, n + 1, cfg, was) && linked <= old(linked)
      ensures if n + 1 < |e| then next == e[n+1] else next != null ==> next in linked && next.due != ctr
    {
      assert t !in e[..n];
      TakeOneMore(e, n);
      RearmOneMore(w, cfg, e[..n], t);
      assert OneShots(e[..n] + [t]) == OneShots(e[..n]) + (if t.config.OneShot? then {t} else {});
      assert e[n..][1..] == e[n+1..];
      hide MidPass, Rearm, OneShots;
      next := Visit(t, Rearm(w, cfg, e[..n]), e[n..], cfg);
    }

    // The loop of OS_TmrTask.
    method Scan(ghost w: Wheel<Timer>, ghost e: seq<Timer>, ghost cfg: map<Timer, Config>, ghost was: set<Timer>)
      returns (fired: seq<Timer>)
      requires |w.spokes| > 0 && Distinct(e) && linked == was && Halfway(w, e, 0, cfg, was)
      requires forall t :: t in e ==> t in cfg && cfg[t] == t.config
      modifies this`spokes, this`linked, linked`state, linked`due, linked`remain
      ensures fired == e && Halfway(w, e, |e|, cfg, was)
    {
      hide SpokeOf, Halfway, Distinct;
      FirstDue(w, e, 0, cfg, linked);
      var k := SpokeOf(ctr, |spokes|);
      var t := if spokes[k] == [] then null else spokes[k][0];
      var done := false;
      fired := [];
      while !done
        invariant |fired| <= |e| && fired == e[..|fired|] && Halfway(w, e, |fired|, cfg, was) && linked <= was
        invariant if |fired| < |e| then t == e[|fired|] else t != null ==> t in linked && t.due != ctr
        invariant done ==> |fired| == |e|
        decreases |e| - |fired|, !done
      {
        if t != null {
          FirstDue(w, e, |fired|, cfg, was);
          if ctr == t.due {
            TakeOneMore(e, |fired|);
            var next := Turn(t, w, e, |fired|, cfg, was);
            fired := fired + [t];
            t := next;
          } else {
            done := true;
          }
        } else {
          done := true;
        }
      }
    }

    // OS_TmrTask, one pass: the timers that fire, in the order of their callbacks.
    method Pass() returns (fired: seq<Timer>)
      requires Valid()
      modifies this, linked`state, linked`due, linked`remain
      ensures Valid() && (Abs(), fired) == TimerRuns.Pass(old(Abs()), old(Configs()))
      ensures linked == old(linked) - OneShots(fired)
      ensures forall t :: t in fired ==> t.state == if t.config.Cyclic? then Running else Completed
    {
      ghost var w0, cfg := Abs(), Configs();
      ghost var (w, e) := Update(w0);
      ctr := Plus(ctr, 1);
      assert Abs().due == w0.due;
      BeginPass(w0, cfg);
      hide TickWheelSpec.Valid, Halfway, Update, Distinct;
      fired := Scan(w, e, cfg, linked);
      EndPass(w, e, cfg, old(linked));
    }

    lemma BeginPass(w: Wheel<Timer>, cfg: map<Timer, Config>)
      requires TickWheelSpec.Valid(w) && Abs() == Wheel(Plus(w.ctr, 1), w.spokes, w.due)
      requires forall t :: t in linked ==> t.state == Running && Accepted(t.config)
      ensures Halfway(Update(w).0, Update(w).1, 0, cfg, linked)
      ensures Distinct(Update(w).1) && Elements(Update(w).1) <= w.due.Keys
    {
      var (w1, e) := Update(w);
      StartPass(w);
      assert e[..0] == [] && e[0..] == e;
    }

    lemma FirstDue(w: Wheel<Timer>, e: seq<Timer>, n: nat, cfg: map<Timer, Config>, was: set<Timer>)
      requires n <= |e| && |w.spokes| > 0 && Halfway(w, e, n, cfg, was)
      ensures |spokes| > 0
      ensures var l := spokes[SpokeOf(ctr, |spokes|)];
        if n < |e| then l != [] && l[0] == e[n] && e[n] in linked && e[n].due == ctr
        else l != [] ==> l[0] in linked && l[0].due != ctr
    {
      FirstFacts(Rearm(w, cfg, e[..n]), e[n..]);
    }

    lemma EndPass(w: Wheel<Timer>, e: seq<Timer>, cfg: map<Timer, Config>, was: set<Timer>)
      requires |w.spokes| > 0 && Halfway(w, e, |e|, cfg, was)
      ensures Valid() && Abs() == Rearm(w, cfg, e) && linked == was - OneShots(e)
      ensures forall t :: t in e ==> t.state == if t.config.Cyclic? then Running else Completed
    {
      assert e[..|e|] == e && e[|e|..] == [];
      AheadNothing(Rearm(w, cfg, e));
    }

    lemma AheadNothing(w: Wheel<Timer>)
      requires |w.spokes| > 0
      ensures Ahead(w, []) == w
    {
      var k := SpokeOf(w.ctr, |w.spokes|);
      assert [] + w.spokes[k] == w.spokes[k];
    }

    // What a pass in progress finds first on its spoke.
    lemma FirstFacts(w: Wheel<Timer>, e: seq<Timer>)
      requires MidPass(w, e)
      ensures |spokes| > 0
      ensures var l := spokes[SpokeOf(ctr, |spokes|)];
        if e != [] then l != [] && l[0] == e[0] && e[0] in linked && e[0].due == ctr
        else l != [] ==> l[0] in linked && l[0].due != ctr
    {
      var k := SpokeOf(ctr, |spokes|);
      assert spokes[k] == e + w.spokes[k];
      assert e != [] ==> e[0] in AllDue(e, ctr);
      if e == [] && spokes[k] != [] {
        assert SpokeOk(w.due, ctr, |spokes|, k, w.spokes[k]);
        assert w.due[w.spokes[k][0]] in w.due.Values;
      }
    }

    lemma StartPass(w: Wheel<Timer>)
      requires TickWheelSpec.Valid(w)
      ensures var (w1, e) := Update(w);
        && TickWheelSpec.Valid(w1) && Distinct(e) && (forall t :: t in e ==> t in w.due && t !in w1.due)
        && Wheel(Plus(w.ctr, 1), w.spokes, w.due) == Ahead(w1, e)
    {
      AheadAtStart(w);
      UpdateRefines(w);
      FiredAreOff(w);
    }
  }
}
