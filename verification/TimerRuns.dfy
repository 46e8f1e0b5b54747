// Software timers on the wheel (os_tmr.c): what one pass of the timer task does, and when
// a timer fires over whole runs. The wheel is the value of TickWheelSpec; OSTmrTickCtr is
// its counter and Match its due time.

module TimerRuns {
  import opened Ticks
  import opened Lists
  import opened TickWheelSpec

  // What OSTmrCreate accepts: a one-shot timer has a delay, a periodic one a period.
  datatype Config = OneShot(dly: Tick) | Cyclic(dly: Tick, period: Tick)

  ghost predicate Accepted(c: Config) {
    match c
    case OneShot(dly) => dly > 0
    case Cyclic(_, period) => period > 0
  }

  // The first time-out: OS_TmrLink with OS_OPT_LINK_DLY.
  function First(c: Config): (d: Tick)
    ensures Accepted(c) ==> d > 0
  {
    if c.Cyclic? && c.dly == 0 then c.period else c.dly
  }

  ghost predicate Configured<T>(w: Wheel<T>, cfg: map<T, Config>) {
    Valid(w) && forall t :: t in w.due ==> t in cfg && Accepted(cfg[t])
  }

  // The timers of a list that go back on the wheel, each one period from now, in turn.
  function Rearm<T(==)>(w: Wheel<T>, cfg: map<T, Config>, l: seq<T>): (r: Wheel<T>)
    requires |w.spokes| > 0
    ensures |r.spokes| == |w.spokes|
    decreases |l|
  {
    if l == [] then w
    else if l[0] in cfg && cfg[l[0]].Cyclic? then
      Rearm(Insert(w, l[0], Plus(w.ctr, cfg[l[0]].period)), cfg, l[1..])
    else Rearm(w, cfg, l[1..])
  }

  // One pass of OS_TmrTask: the due timers fire, in list order, and the periodic ones among
  // them are linked again.
  function Pass<T(==)>(w: Wheel<T>, cfg: map<T, Config>): (r: (Wheel<T>, seq<T>))
    requires |w.spokes| > 0
    ensures |r.0.spokes| == |w.spokes|
  {
    var (w1, fired) := Update(w);
    (Rearm(w1, cfg, fired), fired)
  }

  function Less(n: nat): nat {
    if n == 0 then 0 else n - 1
  }

  // The same pass on a plain table of remaining ticks.
  ghost function TablePass<T>(s: map<T, nat>, cfg: map<T, Config>): map<T, nat> {
    map t | t in s && (s[t] != 1 || (t in cfg && cfg[t].Cyclic?)) ::
      if s[t] != 1 then Less(s[t]) else cfg[t].period as nat
  }

  ghost function TableRearm<T>(s: map<T, nat>, cfg: map<T, Config>, l: seq<T>): map<T, nat>
    decreases |l|
  {
    if l == [] then s
    else if l[0] in cfg && cfg[l[0]].Cyclic? then TableRearm(s[l[0] := cfg[l[0]].period as nat], cfg, l[1..])
    else TableRearm(s, cfg, l[1..])
  }

  lemma {:induction false} RearmRefines<T>(w: Wheel<T>, cfg: map<T, Config>, l: seq<T>)
    requires Valid(w) && Distinct(l)
    requires forall t :: t in l ==> t !in w.due && t in cfg && Accepted(cfg[t])
    ensures Valid(Rearm(w, cfg, l)) && Rearm(w, cfg, l).ctr == w.ctr
    ensures Sleepers(Rearm(w, cfg, l)) == TableRearm(Sleepers(w), cfg, l)
    decreases |l|
  {
    hide Valid, Sleepers;
    if l != [] {
      var t := l[0];
      if cfg[t].Cyclic? {
        var d := Plus(w.ctr, cfg[t].period);
        InsertRefines(w, t, d);
        RearmRefines(Insert(w, t, d), cfg, l[1..]);
      } else {
        RearmRefines(w, cfg, l[1..]);
      }
    }
  }

  lemma {:induction false} TableRearmAt<T>(s: map<T, nat>, cfg: map<T, Config>, l: seq<T>, t: T)
    ensures var r := TableRearm(s, cfg, l); var again := t in l && t in cfg && cfg[t].Cyclic?;
      && (t in r <==> again || t in s)
      && (t in r ==> r[t] == if again then cfg[t].period as nat else s[t])
    decreases |l|
  {
    if l != [] {
      if l[0] in cfg && cfg[l[0]].Cyclic? {
        TableRearmAt(s[l[0] := cfg[l[0]].period as nat], cfg, l[1..], t);
      } else {
        TableRearmAt(s, cfg, l[1..], t);
      }
    }
  }

  // A pass is a scan of the whole table: exactly the timers with one tick left fire, once
  // each and in the order of their spoke, and the periodic ones restart with a full period.
  lemma PassRefines<T>(w: Wheel<T>, cfg: map<T, Config>)
    requires Configured(w, cfg)
    ensures Valid(Pass(w, cfg).0) && Distinct(Pass(w, cfg).1)
    ensures Sleepers(Pass(w, cfg).0) == TablePass(Sleepers(w), cfg)
    ensures Elements(Pass(w, cfg).1) == Due(Sleepers(w))
    ensures Pass(w, cfg).1 <= w.spokes[(w.ctr + 1) % MODULUS % |w.spokes|]
  {
    hide Valid, Update, TablePass, TableRearm, Distinct, Elements, SpokeOf, Sleepers, Due;
    HasSpokes(w);
    var (w1, fired) := Update(w);
    UpdateRefines(w);
    FiredAreOff(w);
    FiredInFront(w);
    SleepsOnWheel(w);
    RearmRefines(w1, cfg, fired);
    TablePassSplit(Sleepers(w), cfg, fired);
  }

  // x stands in front of y.
  ghost predicate Before<T>(l: seq<T>, x: T, y: T) {
    exists p, q :: 0 <= p < q < |l| && l[p] == x && l[q] == y
  }

  lemma InsertedBefore<T>(l: seq<T>, n: nat, t: T, x: T, y: T)
    requires n <= |l| && Before(l, x, y)
    ensures Before(InsertAt(l, n, t), x, y)
  {
    var p, q :| 0 <= p < q < |l| && l[p] == x && l[q] == y;
    var r := InsertAt(l, n, t);
    assert r[if p < n then p else p + 1] == x && r[if q < n then q else q + 1] == y;
  }

  lemma {:induction false} RearmKeepsOrder<T>(w: Wheel<T>, cfg: map<T, Config>, l: seq<T>, j: nat, x: T, y: T)
    requires |w.spokes| > 0 && j < |w.spokes| && Before(w.spokes[j], x, y)
    ensures Before(Rearm(w, cfg, l).spokes[j], x, y)
    decreases |l|
  {
    hide Before, InsertAt, SpokeOf, InsertPos;
    if l != [] {
      if l[0] in cfg && cfg[l[0]].Cyclic? {
        var d := Plus(w.ctr, cfg[l[0]].period);
        var k := SpokeOf(d, |w.spokes|);
        if j == k { InsertedBefore(w.spokes[k], InsertPos(w.due, w.ctr, w.spokes[k], Minus(d, w.ctr)), l[0], x, y); }
        RearmKeepsOrder(Insert(w, l[0], d), cfg, l[1..], j, x, y);
      } else {
        RearmKeepsOrder(w, cfg, l[1..], j, x, y);
      }
    }
  }

  // A timer linked later goes in front of one that is due at the same time.
  lemma NewerInFront<T>(w: Wheel<T>, t: T, y: T)
    requires Valid(w) && y in w.due && t != y
    ensures Before(Insert(w, t, w.due[y]).spokes[SpokeOf(w.due[y], |w.spokes|)], t, y)
  {
    hide Valid, Before, InsertPos;
    OnItsSpoke(w, y);
    JoinsBefore(w.due, w.ctr, w.spokes[SpokeOf(w.due[y], |w.spokes|)], t, y);
  }

  lemma OnItsSpoke<T>(w: Wheel<T>, y: T)
    requires Valid(w) && y in w.due
    ensures |w.spokes| > 0 && y in w.spokes[SpokeOf(w.due[y], |w.spokes|)]
  {
  }

  lemma JoinsBefore<T>(due: map<T, Tick>, c: Tick, l: seq<T>, t: T, y: T)
    requires y in l && y in due
    ensures Before(InsertAt(l, InsertPos(due, c, l, Minus(due[y], c)), t), t, y)
  {
    hide InsertPos;
    var q :| 0 <= q < |l| && l[q] == y;
    var p := InsertPos(due, c, l, Minus(due[y], c));
    assert p <= q;
    var r := InsertAt(l, p, t);
    assert r[p] == t && r[q+1] == y;
  }

  // Of two timers that fire in one pass and have the same period, the one that fires first stands
  // behind the other from then on.
  lemma {:induction false} RearmTurnsRound<T>(w: Wheel<T>, cfg: map<T, Config>, l: seq<T>, i: nat, j: nat)
    requires Valid(w) && Distinct(l) && i < j < |l|
    requires forall t :: t in l ==> t !in w.due && t in cfg && Accepted(cfg[t])
    requires cfg[l[i]].Cyclic? && cfg[l[j]].Cyclic? && cfg[l[i]].period == cfg[l[j]].period
    ensures var d := Plus(w.ctr, cfg[l[i]].period);
      |w.spokes| > 0 && Before(Rearm(w, cfg, l).spokes[d % |w.spokes|], l[j], l[i])
    decreases |l|
  {
    hide Valid, Before, Insert;
    HasSpokes(w);
    var t := l[0];
    if cfg[t].Cyclic? {
      var d := Plus(w.ctr, cfg[t].period);
      var w1 := Insert(w, t, d);
      InsertRefines(w, t, d);
      InsertedDue(w, t, d);
      if i == 0 {
        JoinsInFront(w1, cfg, l[1..], j - 1, t);
      } else {
        RearmTurnsRound(w1, cfg, l[1..], i - 1, j - 1);
      }
    } else {
      RearmTurnsRound(w, cfg, l[1..], i - 1, j - 1);
    }
  }

  lemma InsertedDue<T>(w: Wheel<T>, t: T, d: Tick)
    requires |w.spokes| > 0
    ensures Insert(w, t, d).due == w.due[t := d] && Insert(w, t, d).ctr == w.ctr
  {
  }

  lemma {:induction false} JoinsInFront<T>(w: Wheel<T>, cfg: map<T, Config>, l: seq<T>, j: nat, y: T)
    requires Valid(w) && Distinct(l) && j < |l| && y in w.due
    requires forall t :: t in l ==> t !in w.due && t in cfg && Accepted(cfg[t])
    requires cfg[l[j]].Cyclic? && w.due[y] == Plus(w.ctr, cfg[l[j]].period)
    ensures |w.spokes| > 0 && Before(Rearm(w, cfg, l).spokes[w.due[y] % |w.spokes|], l[j], y)
    decreases |l|
  {
    hide Valid, Before, Insert;
    HasSpokes(w);
    var t := l[0];
    if cfg[t].Cyclic? {
      var d := Plus(w.ctr, cfg[t].period);
      InsertRefines(w, t, d);
      InsertedDue(w, t, d);
      if j == 0 {
        NewerInFront(w, t, y);
        RearmKeepsOrder(Insert(w, t, d), cfg, l[1..], SpokeOf(d, |w.spokes|), t, y);
      } else {
        JoinsInFront(Insert(w, t, d), cfg, l[1..], j - 1, y);
      }
    } else {
      JoinsInFront(w, cfg, l[1..], j - 1, y);
    }
  }

  lemma SleepsOnWheel<T>(w: Wheel<T>)
    requires Valid(w)
    ensures Sleepers(w).Keys == w.due.Keys && forall t :: t in Sleepers(w) ==> Sleepers(w)[t] > 0
  {
    assert forall t :: t in w.due ==> w.due[t] in w.due.Values;
  }

  lemma FiredInFront<T>(w: Wheel<T>)
    requires |w.spokes| > 0
    ensures Update(w).1 <= w.spokes[(w.ctr + 1) % MODULUS % |w.spokes|]
  {
  }

  lemma FiredAreOff<T>(w: Wheel<T>)
    requires Valid(w)
    ensures forall t :: t in Update(w).1 ==> t in w.due && t !in Update(w).0.due
  {
    var (w1, out) := Update(w);
    forall t | t in out
      ensures t in w.due && t !in w1.due
    {
      ScanStopsRight(w, t);
      assert t in Elements(out);
    }
  }

  lemma TablePassSplit<T>(s: map<T, nat>, cfg: map<T, Config>, fired: seq<T>)
    requires Elements(fired) == Due(s) && forall t :: t in s ==> t in cfg && s[t] > 0
    ensures TablePass(s, cfg) == TableRearm(ScanAll(s), cfg, fired)
  {
    var a, b := TablePass(s, cfg), TableRearm(ScanAll(s), cfg, fired);
    forall t | t in a.Keys + b.Keys
      ensures t in a.Keys && t in b.Keys && a[t] == b[t]
    {
      TableRearmAt(ScanAll(s), cfg, fired, t);
      assert t in fired <==> t in Due(s);
    }
  }

  // ---------------------------------------------------------------- whole runs

  datatype Op<T> = Start(t: T) | Stop(t: T) | Tick

  // OSTmrStart takes a running timer off the wheel before it links it; OSTmrStop leaves a
  // timer that is not running alone.
  ghost function Step<T>(w: Wheel<T>, cfg: map<T, Config>, op: Op<T>): Wheel<T>
    requires |w.spokes| > 0 && (op.Start? ==> op.t in cfg)
  {
    match op
    case Start(t) =>
      var w1 := Remove(w, t);
      Insert(w1, t, Plus(w.ctr, First(cfg[t])))
    case Stop(t) => Remove(w, t)
    case Tick => Pass(w, cfg).0
  }

  ghost predicate Legal<T>(cfg: map<T, Config>, ops: seq<Op<T>>) {
    && (forall t :: t in cfg ==> Accepted(cfg[t]))
    && (forall op :: op in ops && op.Start? ==> op.t in cfg)
  }

  ghost function TableStep<T>(s: map<T, nat>, cfg: map<T, Config>, op: Op<T>): map<T, nat>
    requires op.Start? ==> op.t in cfg
  {
    match op
    case Start(t) => s[t := First(cfg[t]) as nat]
    case Stop(t) => s - {t}
    case Tick => TablePass(s, cfg)
  }

  // The sets of timers that fire, one per pass.
  ghost function Firings<T>(w: Wheel<T>, cfg: map<T, Config>, ops: seq<Op<T>>): seq<set<T>>
    requires |w.spokes| > 0 && Legal(cfg, ops)
    decreases |ops|
  {
    if ops == [] then []
    else
      assert ops[0] in ops;
      (if ops[0].Tick? then [Elements(Pass(w, cfg).1)] else []) + Firings(Step(w, cfg, ops[0]), cfg, ops[1..])
  }

  ghost function TableFirings<T>(s: map<T, nat>, cfg: map<T, Config>, ops: seq<Op<T>>): seq<set<T>>
    requires Legal(cfg, ops)
    decreases |ops|
  {
    if ops == [] then []
    else
      assert ops[0] in ops;
      (if ops[0].Tick? then [Due(s)] else []) + TableFirings(TableStep(s, cfg, ops[0]), cfg, ops[1..])
  }

  lemma StartRefines<T>(w: Wheel<T>, cfg: map<T, Config>, t: T)
    requires Configured(w, cfg) && t in cfg && Accepted(cfg[t])
    ensures Configured(Step(w, cfg, Start(t)), cfg)
    ensures Sleepers(Step(w, cfg, Start(t))) == TableStep(Sleepers(w), cfg, Start(t))
  {
    hide Valid;
    RemoveRefines(w, t);
    InsertRefines(Remove(w, t), t, Plus(w.ctr, First(cfg[t])));
  }

  lemma TickRefines<T>(w: Wheel<T>, cfg: map<T, Config>)
    requires Configured(w, cfg)
    ensures Configured(Pass(w, cfg).0, cfg)
    ensures Sleepers(Pass(w, cfg).0) == TablePass(Sleepers(w), cfg)
    ensures Elements(Pass(w, cfg).1) == Due(Sleepers(w))
  {
    hide Valid, Pass;
    HasSpokes(w);
    PassRefines(w, cfg);
    assert Sleepers(Pass(w, cfg).0).Keys <= Sleepers(w).Keys;
  }

  lemma StepRefines<T>(w: Wheel<T>, cfg: map<T, Config>, op: Op<T>)
    requires Configured(w, cfg) && Legal(cfg, [op])
    ensures op.Start? ==> op.t in cfg
    ensures Configured(Step(w, cfg, op), cfg)
    ensures Sleepers(Step(w, cfg, op)) == TableStep(Sleepers(w), cfg, op)
    ensures op.Tick? ==> Elements(Pass(w, cfg).1) == Due(Sleepers(w))
  {
    hide Valid, Pass, Sleepers, TablePass;
    assert op in [op];
    match op
    case Start(t) => StartRefines(w, cfg, t);
    case Stop(t) => RemoveRefines(w, t);
    case Tick => TickRefines(w, cfg);
  }

  // Over any run, the timer wheel fires exactly what a scan of all timers would fire.
  lemma {:induction false} FiringsRefine<T>(w: Wheel<T>, cfg: map<T, Config>, ops: seq<Op<T>>)
    requires Configured(w, cfg) && Legal(cfg, ops)
    ensures Firings(w, cfg, ops) == TableFirings(Sleepers(w), cfg, ops)
    decreases |ops|
  {
    if ops != [] {
      assert Legal(cfg, [ops[0]]);
      StepRefines(w, cfg, ops[0]);
      FiringsRefine(Step(w, cfg, ops[0]), cfg, ops[1..]);
    }
  }

  function Passes<T>(ops: seq<Op<T>>): nat {
    if ops == [] then 0 else (if ops[0].Tick? then 1 else 0) + Passes(ops[1..])
  }

  ghost predicate Untouched<T>(t: T, ops: seq<Op<T>>) {
    forall op :: op in ops && !op.Tick? ==> op.t != t
  }

  // The passes, counted from 1, at which a timer with r ticks left fires.
  ghost predicate FiresAt(c: Config, r: nat, j: nat)
    requires Accepted(c)
    decreases j
  {
    j == r || (c.Cyclic? && 0 < r < j && FiresAt(c, c.period, j - r))
  }

  // In closed form: at r, and for a periodic timer at every further period after r.
  lemma {:induction false} FiresAtClosed(c: Config, r: nat, j: nat)
    requires Accepted(c) && 0 < r
    ensures FiresAt(c, r, j) <==> j == r || (c.Cyclic? && j > r && (j - r) % c.period == 0)
    decreases j
  {
    if c.Cyclic? && r < j {
      FiresAtClosed(c, c.period, j - r);
      var m, p := j - r, c.period;
      if m >= p { ModMinus(m, p); }
    }
  }

  lemma FiresAtClosedForm(c: Config, r: nat)
    requires Accepted(c) && 0 < r
    ensures forall j: nat :: FiresAt(c, r, j) <==> j == r || (c.Cyclic? && j > r && (j - r) % c.period == 0)
  {
    forall j: nat
      ensures FiresAt(c, r, j) <==> j == r || (c.Cyclic? && j > r && (j - r) % c.period == 0)
    {
      FiresAtClosed(c, r, j);
    }
  }

  lemma ModMinus(m: nat, p: nat)
    requires 0 < p <= m
    ensures m % p == (m - p) % p
  {
    var q, r := (m - p) / p, (m - p) % p;
    assert m == (q + 1) * p + r;
    QuotientUnique(m, p, q + 1, r);
  }

  lemma QuotientUnique(m: nat, p: nat, q: nat, r: nat)
    requires 0 < p && m == q * p + r && r < p
    ensures m % p == r
  {
    var q', r' := m / p, m % p;
    assert (q - q') * p == r' - r;
    Multiple(q - q', p);
  }

  lemma Multiple(x: int, p: int)
    requires p > 0
    ensures x >= 1 ==> x * p >= p
    ensures x <= -1 ==> x * p <= -p
  {
  }

  lemma {:induction false} TableSilent<T>(s: map<T, nat>, cfg: map<T, Config>, t: T, ops: seq<Op<T>>)
    requires Legal(cfg, ops) && Untouched(t, ops) && t !in s
    ensures |TableFirings(s, cfg, ops)| == Passes(ops)
    ensures forall j :: 0 <= j < Passes(ops) ==> t !in TableFirings(s, cfg, ops)[j]
    decreases |ops|
  {
    if ops != [] {
      TableSilent(TableStep(s, cfg, ops[0]), cfg, t, ops[1..]);
    }
  }

  lemma {:induction false} TableFires<T>(s: map<T, nat>, cfg: map<T, Config>, t: T, ops: seq<Op<T>>)
    requires Legal(cfg, ops) && Untouched(t, ops) && t in s && s[t] > 0 && t in cfg
    ensures |TableFirings(s, cfg, ops)| == Passes(ops)
    ensures forall j :: 0 <= j < Passes(ops) ==> (t in TableFirings(s, cfg, ops)[j] <==> FiresAt(cfg[t], s[t], j + 1))
    decreases |ops|
  {
    if ops != [] {
      assert ops[0] in ops;
      var s' := TableStep(s, cfg, ops[0]);
      var c, r := cfg[t], s[t];
      if ops[0].Tick? && r == 1 {
        if c.Cyclic? {
          TableFires(s', cfg, t, ops[1..]);
        } else {
          TableSilent(s', cfg, t, ops[1..]);
        }
      } else {
        TableFires(s', cfg, t, ops[1..]);
        if ops[0].Tick? { FiresLater(c, r - 1); }
      }
    }
  }

  // One tick less to go, one pass earlier.
  lemma FiresLater(c: Config, r: nat)
    requires Accepted(c) && r > 0
    ensures forall j: nat :: 1 <= j ==> (FiresAt(c, r, j) <==> FiresAt(c, r + 1, j + 1))
  {
  }

  // A timer that is started and then left alone fires at its first time-out, and, if it is
  // periodic, at every period after that; at no other pass, and at most once in a pass,
  // whatever happens to the other timers and across any number of counter wraps.
  lemma FiresExactly<T>(w: Wheel<T>, cfg: map<T, Config>, t: T, ops: seq<Op<T>>)
    requires Configured(w, cfg) && Legal(cfg, ops) && t in cfg && Untouched(t, ops)
    ensures var fs := Firings(Step(w, cfg, Start(t)), cfg, ops);
      && |fs| == Passes(ops)
      && forall j :: 0 <= j < |fs| ==> (t in fs[j] <==>
           var (n, d) := (j + 1, if cfg[t].Cyclic? && cfg[t].dly == 0 then cfg[t].period else cfg[t].dly);
           n == d || (cfg[t].Cyclic? && n > d && (n - d) % cfg[t].period == 0))
  {
    StartRefines(w, cfg, t);
    hide Valid, Pass, Sleepers, FiresAt, Untouched, Step;
    var w0 := Step(w, cfg, Start(t));
    FiringsRefine(w0, cfg, ops);
    TableFires(Sleepers(w0), cfg, t, ops);
    FiresAtClosedForm(cfg[t], First(cfg[t]));
  }
}
