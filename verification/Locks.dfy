/** The locks of the edge router and the router. Every handler takes its locks in one rank order, so no mix of handlers
    ever waits in a circle. Writes and channel sends are work that ends. */
module Locks {
  import opened Mmtp

  datatype LockId =
    | AgentsMu | MrnToAgentMu | ResponseMu | WsMu   // tables of the edge router
    | ErMu                                          // the router's sessions
    | SubMu                                         // subject table
    | SubsMu(subject: string)                       // the subscribers of one subject
    | MsgMu(consumer: nat)                          // messages of one consumer
    | NotifyMu(consumer: nat)                       // notifications of one consumer

  function Rank(l: LockId): (r: nat)
    ensures r <= 4
  {
    match l
    case SubMu => 1
    case SubsMu(_) => 2
    case MsgMu(_) => 3
    case NotifyMu(_) => 4
    case _ => 0
  }

  datatype Op = Lock(lock: LockId) | RLock(lock: LockId) | Unlock(lock: LockId) | RUnlock(lock: LockId) | Work

  datatype Hold = Hold(lock: LockId, shared: bool)

  // ---- the discipline of one handler ----

  /** Every lock held ranks below `l`. */
  predicate Below(held: set<Hold>, l: LockId) {
    forall h :: h in held ==> Rank(h.lock) < Rank(l)
  }

  /** What is held after the operation, when it keeps the rank order and releases only what is held. */
  function After(op: Op, held: set<Hold>): Option<set<Hold>> {
    match op
    case Lock(l) => if Below(held, l) then Some(held + {Hold(l, false)}) else None
    case RLock(l) => if Below(held, l) then Some(held + {Hold(l, true)}) else None
    case Unlock(l) => if Hold(l, false) in held then Some(held - {Hold(l, false)}) else None
    case RUnlock(l) => if Hold(l, true) in held then Some(held - {Hold(l, true)}) else None
    case Work => Some(held)
  }

  function Run(prog: seq<Op>, held: set<Hold>): Option<set<Hold>> {
    if prog == [] then Some(held)
    else match After(prog[0], held)
      case None => None
      case Some(h) => Run(prog[1..], h)
  }

  /** From `held`, the program keeps the rank order and ends with no lock held. */
  predicate Ordered(prog: seq<Op>, held: set<Hold>) {
    Run(prog, held) == Some({})
  }

  lemma {:induction false} RunConcat(a: seq<Op>, b: seq<Op>, held: set<Hold>)
    ensures Run(a + b, held) == if Run(a, held).Some? then Run(b, Run(a, held).value) else None
  {
    if a == [] {
      assert a + b == b;
    } else {
      assert (a + b)[0] == a[0] && (a + b)[1..] == a[1..] + b;
      if After(a[0], held).Some? {
        RunConcat(a[1..], b, After(a[0], held).value);
      }
    }
  }

  // ---- any number of handlers ----

  /** `pending`: the next operation is a Lock that has been called; from then on readers wait for it. */
  datatype Thread = Thread(held: set<Hold>, rest: seq<Op>, pending: bool)

  type System = seq<Thread>

  predicate Holds(t: Thread, l: LockId) {
    Hold(l, false) in t.held || Hold(l, true) in t.held
  }

  predicate Free(s: System, l: LockId) {
    forall i :: 0 <= i < |s| ==> !Holds(s[i], l)
  }

  predicate WaitsToWrite(t: Thread, l: LockId) {
    t.pending && t.rest != [] && t.rest[0] == Lock(l)
  }

  predicate NoWriter(s: System, l: LockId) {
    forall i :: 0 <= i < |s| ==> Hold(l, false) !in s[i].held && !WaitsToWrite(s[i], l)
  }

  predicate CanStep(s: System, i: nat) {
    && i < |s| && s[i].rest != []
    && match s[i].rest[0]
       case Lock(l) => !s[i].pending || Free(s, l)
       case RLock(l) => NoWriter(s, l)
       case _ => true
  }

  function Advanced(t: Thread): Thread
    requires t.rest != []
  {
    if t.rest[0].Lock? && !t.pending then t.(pending := true)
    else
      var held := if After(t.rest[0], t.held).Some? then After(t.rest[0], t.held).value else t.held;
      Thread(held, t.rest[1..], false)
  }

  function Step(s: System, i: nat): System
    requires CanStep(s, i)
  {
    s[i := Advanced(s[i])]
  }

  ghost predicate ThreadOk(t: Thread) {
    Ordered(t.rest, t.held) && (t.pending ==> t.rest != [] && t.rest[0].Lock?)
  }

  /** Whoever holds a lock for writing holds it alone. */
  ghost predicate Exclusive(s: System) {
    forall i, j, l :: 0 <= i < |s| && 0 <= j < |s| && i != j && Hold(l, false) in s[i].held ==> !Holds(s[j], l)
  }

  ghost predicate Inv(s: System) {
    (forall i :: 0 <= i < |s| ==> ThreadOk(s[i])) && Exclusive(s)
  }

  lemma StepInv(s: System, i: nat)
    requires Inv(s) && CanStep(s, i)
    ensures Inv(Step(s, i))
  {
    var n, t := Step(s, i), s[i];
    assert ThreadOk(t);
    forall l | Hold(l, false) in n[i].held && Hold(l, false) !in t.held ensures Free(s, l) {}
    forall l | Hold(l, true) in n[i].held && Hold(l, true) !in t.held ensures NoWriter(s, l) {}
    forall j, k, l | 0 <= j < |n| && 0 <= k < |n| && j != k && Hold(l, false) in n[j].held ensures !Holds(n[k], l) {
      assert Holds(n[j], l);
      if j != i && k != i {
        assert Hold(l, false) in s[j].held;
      }
    }
  }

  function NextRank(t: Thread): nat {
    if t.rest != [] && (t.rest[0].Lock? || t.rest[0].RLock?) then Rank(t.rest[0].lock) else 0
  }

  /** A thread that waits for a lock waits for a writer that can go on, or for a holder, which can itself wait only for
      a lock of higher rank. */
  lemma WaitsFor(s: System, i: nat) returns (k: nat)
    requires Inv(s) && i < |s| && s[i].rest != [] && !CanStep(s, i)
    ensures k < |s| && (CanStep(s, k) || (s[k].rest != [] && NextRank(s[k]) > NextRank(s[i])))
  {
    var l := s[i].rest[0].lock;
    if k' :| 0 <= k' < |s| && Holds(s[k'], l) {
      k := k';
      assert ThreadOk(s[k]);
    } else {
      // nobody holds it, so a reader waits for a writer
      assert Free(s, l);
      k :| 0 <= k < |s| && WaitsToWrite(s[k], l);
      assert CanStep(s, k);
    }
  }

  /** No circular wait: as long as some handler is unfinished, some handler can go on. */
  lemma {:induction false} SomeoneCanStep(s: System, i: nat) returns (j: nat)
    requires Inv(s) && i < |s| && s[i].rest != []
    ensures CanStep(s, j)
    decreases 4 - NextRank(s[i])
  {
    j := i;
    if !CanStep(s, i) {
      j := WaitsFor(s, i);
      if !CanStep(s, j) {
        j := SomeoneCanStep(s, j);
      }
    }
  }

  // ---- runs ----

  function Start(progs: seq<seq<Op>>): System {
    seq(|progs|, i requires 0 <= i < |progs| => Thread({}, progs[i], false))
  }

  ghost predicate IsRun(progs: seq<seq<Op>>, run: seq<System>, steps: seq<nat>) {
    && |run| == |steps| + 1 && run[0] == Start(progs)
    && forall i :: 0 <= i < |steps| ==> CanStep(run[i], steps[i]) && run[i + 1] == Step(run[i], steps[i])
  }

  lemma {:induction false} RunInv(progs: seq<seq<Op>>, run: seq<System>, steps: seq<nat>, n: nat)
    requires IsRun(progs, run, steps) && n < |run|
    requires forall i :: 0 <= i < |progs| ==> Ordered(progs[i], {})
    ensures Inv(run[n]) && |run[n]| == |progs|
  {
    if n > 0 {
      RunInv(progs, run, steps, n - 1);
      StepInv(run[n - 1], steps[n - 1]);
    }
  }

  /** Whatever the others do, a handler that keeps the rank order ends with the locks its program leaves. */
  lemma {:induction false} EndKept(progs: seq<seq<Op>>, run: seq<System>, steps: seq<nat>, n: nat, i: nat)
    requires IsRun(progs, run, steps) && n < |run| && i < |progs| && Run(progs[i], {}).Some?
    ensures |run[n]| == |progs| && Run(run[n][i].rest, run[n][i].held) == Run(progs[i], {})
  {
    if n > 0 {
      EndKept(progs, run, steps, n - 1, i);
    }
  }

  /** What is left to do, a called Lock counting half. */
  function Left(t: Thread): nat {
    2 * |t.rest| + if !t.pending && t.rest != [] && t.rest[0].Lock? then 1 else 0
  }

  function LeftOver(s: System): nat {
    if s == [] then 0 else Left(s[0]) + LeftOver(s[1..])
  }

  lemma {:induction false} LeftOverSet(s: System, i: nat, t: Thread)
    requires i < |s|
    ensures LeftOver(s[i := t]) + Left(s[i]) == LeftOver(s) + Left(t)
  {
    if i > 0 {
      LeftOverSet(s[1..], i - 1, t);
      assert s[i := t][1..] == s[1..][i - 1 := t];
    } else {
      assert s[i := t][1..] == s[1..];
    }
  }

  lemma {:induction false} RunsEnd(progs: seq<seq<Op>>, run: seq<System>, steps: seq<nat>, n: nat)
    requires IsRun(progs, run, steps) && n < |run|
    ensures LeftOver(run[n]) + n <= LeftOver(Start(progs))
  {
    if n > 0 {
      RunsEnd(progs, run, steps, n - 1);
      var s, i := run[n - 1], steps[n - 1];
      LeftOverSet(s, i, Advanced(s[i]));
    }
  }

  /** Any number of handlers in any mix: every run is finite, and one that cannot go on has finished every handler with
      no lock held. */
  lemma NoDeadlock(progs: seq<seq<Op>>, run: seq<System>, steps: seq<nat>)
    requires IsRun(progs, run, steps) && forall i :: 0 <= i < |progs| ==> Ordered(progs[i], {})
    ensures |steps| <= LeftOver(Start(progs))
    ensures
      var s := run[|steps|];
      (forall i :: 0 <= i < |s| ==> !CanStep(s, i)) ==> forall i :: 0 <= i < |s| ==> s[i].rest == [] && s[i].held == {}
  {
    var s := run[|steps|];
    RunsEnd(progs, run, steps, |steps|);
    RunInv(progs, run, steps, |steps|);
    forall i | 0 <= i < |s| && s[i].rest != [] ensures exists j :: 0 <= j < |s| && CanStep(s, j) {
      var j := SomeoneCanStep(s, i);
    }
    forall i | 0 <= i < |s| ensures s[i].rest == [] ==> s[i].held == {} { assert ThreadOk(s[i]); }
  }
}
