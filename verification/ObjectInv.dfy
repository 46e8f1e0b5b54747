// What holds of every object between any two steps, and that waiting, posting, aborting and
// deleting keep it: no token or message lies about while somebody waits for it, and no
// event flag waiter sleeps through its event.

module ObjectInv {
  import opened Ticks
  import opened Lists
  import opened Tasks
  import opened KernelState
  import opened KernelSteps
  import opened KernelReleases
  import opened ObjectSpec

  // ---------------------------------------------------------------- the invariant

  // No waiter of the group sleeps through its event.
  predicate NoneMissed(k: K, l: seq<Tid>, bits: bv32) {
    forall t :: t in l ==> t in k.tasks && k.tasks[t].pendOn == OnFlag && !FlagHit(k, t, bits)
  }

  predicate ObjOk(k: K, o: Oid, b: Obj) {
    o in k.pend &&
    match b
    case Sem(ctr) => ctr <= CTR_MAX && (k.pend[o] != [] ==> ctr == 0)
    case Queue(msgs, cap) => |msgs| <= cap && (k.pend[o] != [] ==> msgs == [])
    case Flags(bits) => NoneMissed(k, k.pend[o], bits)
    case Mutex(owner, _, nest) =>
      nest <= NEST_MAX && (nest == 0 <==> owner == Nobody) && (nest == 0 ==> k.pend[o] == [])
  }

  predicate InboxOk(k: K, inbox: map<Tid, Inbox>) {
    && inbox.Keys == k.tasks.Keys
    && (forall t :: t in inbox ==> |inbox[t].msgs| <= inbox[t].cap)
    && (forall t :: t in inbox && k.tasks[t].pendOn == OnTaskQ ==> inbox[t].msgs == [])
  }

  ghost predicate SysInv(s: Sys) {
    && Inv(s.k)
    && (forall o :: o in s.objs ==> ObjOk(s.k, o, s.objs[o]))
    && (forall o :: o in s.k.pend && o !in s.objs ==> s.k.pend[o] == [])
    && InboxOk(s.k, s.inbox)
  }

  lemma SysParts(s: Sys)
    requires SysInv(s)
    ensures Inv(s.k) && PendInv(s.k.tasks, s.k.pend) && forall t :: t in s.k.tasks ==> TcbOk(s.k.tasks[t])
    ensures s.k.cur in s.k.tasks && s.k.tasks[s.k.cur].st == RDY ==> !s.k.tasks[s.k.cur].linked
  {
    assert s.k.cur in s.k.tasks ==> TcbOk(s.k.tasks[s.k.cur]);
  }

  lemma SysObject(s: Sys, o: Oid)
    requires SysInv(s) && o in s.objs
    ensures ObjOk(s.k, o, s.objs[o])
  {
  }

  // ---------------------------------------------------------------- steps that wake or do nothing

  predicate SameWait(a: Tcb, b: Tcb) {
    a.pendOn == b.pendOn && a.flagsPend == b.flagsPend && a.flagsMode == b.flagsMode
  }

  predicate StillWaits(k: K, k': K, o: Oid, t: Tid)
    requires o in k.pend && k'.tasks.Keys == k.tasks.Keys
  {
    t in k.pend[o] && (t in k.tasks ==> SameWait(k.tasks[t], k'.tasks[t]))
  }

  // Nobody new waits, and whoever still waits, waits for the same.
  ghost predicate Shrinks(k: K, k': K) {
    && k'.pend.Keys == k.pend.Keys
    && k'.tasks.Keys == k.tasks.Keys
    && (forall o, t :: o in k.pend && t in k'.pend[o] ==> StillWaits(k, k', o, t))
    && (forall t :: t in k.tasks && k'.tasks[t].pendOn == OnTaskQ ==> k.tasks[t].pendOn == OnTaskQ)
  }

  lemma NobodyNew(k: K, k': K, o: Oid)
    requires Shrinks(k, k') && o in k.pend
    ensures k.pend[o] == [] ==> k'.pend[o] == []
  {
    if k'.pend[o] != [] {
      assert StillWaits(k, k', o, k'.pend[o][0]);
    }
  }

  lemma ShrunkObj(k: K, k': K, o: Oid, b: Obj)
    requires ObjOk(k, o, b) && Shrinks(k, k')
    ensures ObjOk(k', o, b)
  {
    NobodyNew(k, k', o);
    forall t | t in k'.pend[o]
      ensures StillWaits(k, k', o, t)
    {
    }
  }

  lemma ShrunkSys(s: Sys, k': K)
    requires SysInv(s) && Inv(k') && Shrinks(s.k, k')
    ensures SysInv(s.(k := k'))
  {
    hide Inv, ObjOk;
    forall o | o in s.objs
      ensures ObjOk(k', o, s.objs[o])
    {
      ShrunkObj(s.k, k', o, s.objs[o]);
    }
    forall o | o in s.k.pend && s.k.pend[o] == []
      ensures k'.pend[o] == []
    {
      NobodyNew(s.k, k', o);
    }
  }

  // Released tasks wait for nothing, so a release only shrinks.
  lemma ReleasedShrinks(k: K, k': K, gone: set<Tid>, f: Tcb -> Tcb)
    requires Released(k, k', gone, f) && forall t :: t in gone && t in k.tasks ==> f(k.tasks[t]).pendOn == OnNothing
    ensures Shrinks(k, k')
  {
  }

  // ---------------------------------------------------------------- posting and cancelling

  function PostedBy(o: Oid, msg: Msg): Tcb -> Tcb { c => Posted(c, o, msg) }

  function CancelledBy(o: Oid, status: PendStatus): Tcb -> Tcb { c => Cancelled(c, o, status) }

  ghost predicate AllWait(k: K, l: seq<Tid>) {
    Distinct(l) && forall t :: t in l ==> t in k.tasks && k.tasks[t].st.pend
  }

  lemma {:induction false} PostAllReleases(k: K, l: seq<Tid>, o: Oid, msg: Msg)
    requires AllWait(k, l)
    ensures PostAll(k, l, o, msg) == ReleaseAll(k, l, PostedBy(o, msg))
    decreases |l|
  {
    if l != [] {
      var k1 := Post(k, l[0], o, msg);
      assert AllWait(k1, l[1..]);
      PostAllReleases(k1, l[1..], o, msg);
    }
  }

  lemma {:induction false} CancelAllReleases(k: K, l: seq<Tid>, o: Oid, status: PendStatus)
    requires AllWait(k, l)
    ensures CancelAll(k, l, o, status) == ReleaseAll(k, l, CancelledBy(o, status))
    decreases |l|
  {
    if l != [] {
      var k1 := Cancel(k, l[0], o, status);
      assert AllWait(k1, l[1..]);
      CancelAllReleases(k1, l[1..], o, status);
    }
  }

  lemma ListWaits(k: K, o: Oid, all: bool)
    requires Inv(k) && o in k.pend
    ensures var l := Chosen(k.pend[o], all);
      && AllWait(k, l)
      && (forall t :: t in l ==> TcbOk(k.tasks[t]) && k.tasks[t].linked && o in Objects(k.tasks[t].table))
  {
    var l := Chosen(k.pend[o], all);
    forall t | t in l
      ensures Waits(k.tasks, t, o) && TcbOk(k.tasks[t])
    {
      assert t in k.pend[o];
    }
  }

  // A post to the waiters of an object, one or all: exactly they are readied, each with the
  // message, and nobody else moves.
  lemma PostAllExact(k: K, o: Oid, all: bool, msg: Msg)
    requires Inv(k) && o in k.pend
    ensures var l := Chosen(k.pend[o], all); var k' := PostAll(k, l, o, msg);
      Inv(k') && Released(k, k', Elements(l), PostedBy(o, msg)) && Shrinks(k, k')
  {
    hide Inv, PostAll, ReleaseAll, Released, Shrinks, Chosen, Mark;
    var l, f := Chosen(k.pend[o], all), PostedBy(o, msg);
    ListWaits(k, o, all);
    PostAllReleases(k, l, o, msg);
    assert CanRelease(k, l, f);
    ReleaseAllKeeps(k, l, f);
    ReleasedShrinks(k, ReleaseAll(k, l, f), Elements(l), f);
  }

  lemma CancelAllExact(k: K, o: Oid, all: bool, status: PendStatus)
    requires Inv(k) && o in k.pend
    ensures var l := Chosen(k.pend[o], all); var k' := CancelAll(k, l, o, status);
      Inv(k') && Released(k, k', Elements(l), CancelledBy(o, status)) && Shrinks(k, k')
  {
    hide Inv, CancelAll, ReleaseAll, Released, Shrinks, Chosen, Mark;
    var l, f := Chosen(k.pend[o], all), CancelledBy(o, status);
    ListWaits(k, o, all);
    CancelAllReleases(k, l, o, status);
    assert CanRelease(k, l, f);
    ReleaseAllKeeps(k, l, f);
    ReleasedShrinks(k, ReleaseAll(k, l, f), Elements(l), f);
  }

  // ---------------------------------------------------------------- starting to wait

  // The object has nothing to offer to somebody waiting like this.
  predicate Bare(k: K, b: Obj, on: PendOn) {
    match b
    case Sem(ctr) => ctr == 0
    case Queue(msgs, _) => msgs == []
    case Flags(bits) => on == OnFlag && !FlagHit(k, k.cur, bits)
    case Mutex(_, _, nest) => nest > 0
  }

  lemma BlockedLists(k: K, on: PendOn, objs: seq<Oid>, timeout: Tick, o: Oid)
    requires k.cur in k.tasks && o in k.pend
    ensures var k' := Pend(k, on, objs, timeout);
      && k'.pend.Keys == k.pend.Keys
      && (o !in objs ==> k'.pend[o] == k.pend[o])
      && (forall t :: t in k'.pend[o] ==> t == k.cur || t in k.pend[o])
  {
    var c := Blocked(k, on, objs, timeout);
    assert forall q :: q in Objects(c.table) ==> q in objs;
    var l := k.pend[o];
    InsertAtMembers(l, PrioPos(k.tasks, l, c.prio), k.cur);
  }

  lemma BlockedObj(k: K, on: PendOn, objs: seq<Oid>, timeout: Tick, o: Oid, b: Obj)
    requires k.cur in k.tasks && ObjOk(k, o, b) && (o in objs ==> Bare(k, b, on))
    requires k.cur !in k.pend[o]
    ensures ObjOk(Pend(k, on, objs, timeout), o, b)
  {
    BlockedLists(k, on, objs, timeout, o);
  }

  lemma BlockedObjs(s: Sys, on: PendOn, objs: seq<Oid>, timeout: Tick)
    requires s.k.cur in s.k.tasks && forall o :: o in s.k.pend ==> s.k.cur !in s.k.pend[o]
    requires forall o :: o in s.objs ==> ObjOk(s.k, o, s.objs[o])
    requires forall o :: o in s.k.pend && o !in s.objs ==> s.k.pend[o] == []
    requires forall o :: o in objs ==> o in s.objs && Bare(s.k, s.objs[o], on)
    ensures var k' := Pend(s.k, on, objs, timeout);
      && k'.pend.Keys == s.k.pend.Keys
      && (forall o :: o in s.objs ==> ObjOk(k', o, s.objs[o]))
      && (forall o :: o in k'.pend && o !in s.objs ==> k'.pend[o] == [])
  {
    BlockedKeys(s.k, on, objs, timeout);
    hide Pend, ObjOk;
    forall o | o in s.objs
      ensures ObjOk(Pend(s.k, on, objs, timeout), o, s.objs[o])
    {
      OnList(s.k, o, s.objs[o]);
      BlockedObj(s.k, on, objs, timeout, o, s.objs[o]);
    }
    forall o | o in s.k.pend && o !in s.objs
      ensures Pend(s.k, on, objs, timeout).pend[o] == []
    {
      BlockedLists(s.k, on, objs, timeout, o);
    }
  }

  // A task that blocks does so on objects that have nothing for it.
  lemma PendSys(s: Sys, on: PendOn, objs: seq<Oid>, timeout: Tick)
    requires SysInv(s) && Runs(s.k) && PendArgs(s.k, on, objs)
    requires forall o :: o in objs ==> o in s.objs && Bare(s.k, s.objs[o], on)
    requires on == OnTaskQ ==> s.inbox[s.k.cur].msgs == []
    ensures SysInv(s.(k := Pend(s.k, on, objs, timeout)))
  {
    assert TcbOk(s.k.tasks[s.k.cur]) && PendInv(s.k.tasks, s.k.pend) && InboxOk(s.k, s.inbox);
    NotLinked(s.k.tasks, s.k.pend, s.k.cur);
    var k' := Pend(s.k, on, objs, timeout);
    hide *;
    PendKeeps(s.k, on, objs, timeout);
    BlockedInbox(s.k, s.inbox, on, objs, timeout);
    BlockedObjs(s, on, objs, timeout);
    Assemble(s.(k := k'));
  }

  lemma Assemble(s: Sys)
    requires Inv(s.k) && InboxOk(s.k, s.inbox)
    requires forall o :: o in s.objs ==> ObjOk(s.k, o, s.objs[o])
    requires forall o :: o in s.k.pend && o !in s.objs ==> s.k.pend[o] == []
    ensures SysInv(s)
  {
  }

  lemma BlockedKeys(k: K, on: PendOn, objs: seq<Oid>, timeout: Tick)
    requires k.cur in k.tasks
    ensures Pend(k, on, objs, timeout).pend.Keys == k.pend.Keys
  {
  }

  lemma BlockedInbox(k: K, inbox: map<Tid, Inbox>, on: PendOn, objs: seq<Oid>, timeout: Tick)
    requires InboxOk(k, inbox) && k.cur in k.tasks && (on == OnTaskQ ==> inbox[k.cur].msgs == [])
    ensures InboxOk(Pend(k, on, objs, timeout), inbox)
  {
  }

  lemma OnList(k: K, o: Oid, b: Obj)
    requires ObjOk(k, o, b)
    ensures o in k.pend
  {
  }
}
