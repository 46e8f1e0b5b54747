// Messages sent to a task come to it in order, over whole runs (os_task.c, OSTaskQPend and
// OSTaskQPost).

module TaskFlow {
  import opened KernelState
  import opened KernelSteps
  import opened ObjectSpec
  import opened ObjectInv
  import opened ObjectRuns
  import KernelRuns
  import ObjectFlow

  // Everything but LIFO posts to t and its deletion.
  predicate InOrder(op: Op, t: Tid) {
    match op
    case OpTaskQPost(x, _, lifo, _) => x == t ==> !lifo
    case OpDeleteTask(x) => x != t
    case _ => true
  }

  // The message a step accepts for t, and the one it hands to it.
  ghost function Sent(s: Sys, op: Op, t: Tid): seq<Msg>
    requires t in s.k.tasks && t in s.inbox
  {
    if op.OpTaskQPost? && op.t == t
      && (s.k.tasks[t].pendOn == OnTaskQ || (|s.inbox[t].msgs| < s.inbox[t].cap && !op.poolEmpty))
    then [op.msg] else []
  }

  ghost function Handed(s: Sys, op: Op, t: Tid): seq<Msg>
    requires t in s.k.tasks && t in s.inbox
  {
    if op.OpTaskQPost? && op.t == t && s.k.tasks[t].pendOn == OnTaskQ then [op.msg]
    else if op.OpTaskQPend? && s.k.cur == t && s.inbox[t].msgs != [] then [s.inbox[t].msgs[0]]
    else []
  }

  ghost predicate AllInOrder(ops: seq<Op>, t: Tid) {
    forall i :: 0 <= i < |ops| ==> InOrder(ops[i], t)
  }

  ghost function AllSent(s: Sys, ops: seq<Op>, t: Tid): seq<Msg>
    requires Legal(s, ops)
    decreases |ops|
  {
    if ops == [] || t !in s.k.tasks || t !in s.inbox then []
    else Sent(s, ops[0], t) + AllSent(Step(s, ops[0]), ops[1..], t)
  }

  ghost function AllHanded(s: Sys, ops: seq<Op>, t: Tid): seq<Msg>
    requires Legal(s, ops)
    decreases |ops|
  {
    if ops == [] || t !in s.k.tasks || t !in s.inbox then []
    else Handed(s, ops[0], t) + AllHanded(Step(s, ops[0]), ops[1..], t)
  }

  lemma MailKept(s: Sys, t: Tid)
    requires SysInv(s)
    ensures t in s.inbox <==> t in s.k.tasks
    ensures t in s.k.tasks && s.k.tasks[t].pendOn == OnTaskQ ==> s.inbox[t].msgs == []
  {
  }

  // What happens to the messages of t in one step.
  lemma MailStep(s: Sys, op: Op, t: Tid)
    requires Allowed(s, op) && InOrder(op, t) && t in s.k.tasks && t in s.inbox
    requires s.k.tasks[t].pendOn == OnTaskQ ==> s.inbox[t].msgs == []
    ensures var s' := Step(s, op);
      t in s'.inbox && Handed(s, op, t) + s'.inbox[t].msgs == s.inbox[t].msgs + Sent(s, op, t)
  {
    hide SemPend, SemPost, SemSet, QPend, QPost, MultiPend, FlagPend, FlagPost, MutexPend, MutexPost, MutexDel,
         CancelAll, Post, Pend, KernelRuns.Step, KernelRuns.Allowed, Delete, Create, Chosen, Quiet;
    if !(op.OpTaskQPost? || op.OpTaskQPend? || op.OpCreateTask? || op.OpDeleteTask?) { OtherMail(s, op); }
  }

  lemma OtherMail(s: Sys, op: Op)
    requires Allowed(s, op) && !op.OpTaskQPost? && !op.OpTaskQPend? && !op.OpCreateTask? && !op.OpDeleteTask?
    ensures Step(s, op).inbox == s.inbox
  {
    hide CancelAll, PostAll, Post, Pend, FlagWake, Reprio, Boost, Unboost, TakeAll, KernelRuns.Step,
         KernelRuns.Allowed, Chosen, Quiet;
  }

  // What was handed to t, followed by what still waits for it, is what waited at the start
  // followed by what was accepted, in that order.
  lemma {:induction false} FirstInFirstOut(s: Sys, ops: seq<Op>, t: Tid)
    requires SysInv(s) && Legal(s, ops) && AllInOrder(ops, t) && t in s.k.tasks && t in s.inbox
    ensures var s' := Run(s, ops);
      t in s'.inbox && AllHanded(s, ops, t) + s'.inbox[t].msgs == s.inbox[t].msgs + AllSent(s, ops, t)
    decreases |ops|
  {
    hide SysInv, Allowed, Broken, Step, Handed, Sent, InOrder;
    if ops != [] {
      var s1 := Step(s, ops[0]);
      StepKeeps(s, ops[0]);
      MailKept(s, t);
      MailStep(s, ops[0], t);
      MailKept(s1, t);
      FirstInFirstOut(s1, ops[1..], t);
      ObjectFlow.Regroup(Handed(s, ops[0], t), AllHanded(s1, ops[1..], t), Run(s1, ops[1..]).inbox[t].msgs,
        s1.inbox[t].msgs,
                         AllSent(s1, ops[1..], t), s.inbox[t].msgs, Sent(s, ops[0], t));
    }
  }
}
