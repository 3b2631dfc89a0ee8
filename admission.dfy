/**
 * Callers running through one limiter at the same time. Each caller of a gated
 * client method goes Waiting -> Inside (its acquire has returned and it is in the
 * delegated call) -> Done (its deferred release has run). A schedule is an
 * interleaving of those steps; a step whose channel operation would block is not
 * enabled, so the scheduler has to pick another.
 */
module Admission {
  import opened Wrappers

  datatype Phase = Waiting | Inside | Done

  /** `Admit(i)`: caller i's acquire returns. `Finish(i)`: caller i's delegate returns and it releases. */
  datatype Event = Admit(caller: nat) | Finish(caller: nat)

  /** One limiter of `capacity` slots, `occupancy` of them in use, and where each caller is. */
  datatype Gate = Gate(capacity: nat, occupancy: nat, callers: seq<Phase>)

  /** How many callers are inside the delegated call. */
  function CountInside(ps: seq<Phase>): (n: nat)
    ensures n <= |ps|
  {
    if ps == [] then 0
    else CountInside(ps[..|ps| - 1]) + (if ps[|ps| - 1] == Inside then 1 else 0)
  }

  lemma {:induction false} CountInsideUpdate(ps: seq<Phase>, i: nat, p: Phase)
    requires i < |ps|
    ensures CountInside(ps[i := p]) + (if ps[i] == Inside then 1 else 0)
         == CountInside(ps) + (if p == Inside then 1 else 0)
  {
    var last := |ps| - 1;
    if i < last {
      assert ps[i := p][..last] == ps[..last][i := p];
      CountInsideUpdate(ps[..last], i, p);
    } else {
      assert ps[i := p][..last] == ps[..last];
    }
  }

  /** Nobody inside means nobody counted. */
  lemma {:induction false} NoneInside(ps: seq<Phase>)
    requires forall i :: 0 <= i < |ps| ==> ps[i] != Inside
    ensures CountInside(ps) == 0
  {
    if ps != [] {
      NoneInside(ps[..|ps| - 1]);
    }
  }

  /** Somebody inside means the count is positive. */
  lemma {:induction false} SomeInside(ps: seq<Phase>, i: nat)
    requires i < |ps| && ps[i] == Inside
    ensures CountInside(ps) > 0
  {
    if i < |ps| - 1 {
      SomeInside(ps[..|ps| - 1], i);
    }
  }

  /** The invariant of the channel: its length is the number of callers inside, never above capacity. */
  ghost predicate Inv(g: Gate)
  {
    g.occupancy == CountInside(g.callers) && g.occupancy <= g.capacity
  }

  /** A fresh limiter of `capacity` slots with `n` callers about to acquire it. */
  function Start(capacity: nat, n: nat): (g: Gate)
    ensures Inv(g) && g.occupancy == 0 && |g.callers| == n
    ensures forall i :: 0 <= i < n ==> g.callers[i] == Waiting
  {
    var callers := seq(n, _ => Waiting);
    NoneInside(callers);
    Gate(capacity, 0, callers)
  }

  /** A step can happen now: a send needs a free slot, a receive needs a buffered value. */
  predicate Enabled(g: Gate, e: Event)
  {
    match e
    case Admit(i) => i < |g.callers| && g.callers[i] == Waiting && g.occupancy < g.capacity
    case Finish(i) => i < |g.callers| && g.callers[i] == Inside && g.occupancy > 0
  }

  function Step(g: Gate, e: Event): (next: Gate)
    requires Enabled(g, e)
    ensures next.capacity == g.capacity && |next.callers| == |g.callers|
  {
    match e
    case Admit(i) => Gate(g.capacity, g.occupancy + 1, g.callers[i := Inside])
    case Finish(i) => Gate(g.capacity, g.occupancy - 1, g.callers[i := Done])
  }

  /** Runs a schedule; `None` when some step of it could not happen at its turn. */
  function Run(g: Gate, schedule: seq<Event>): Option<Gate>
    decreases |schedule|
  {
    if schedule == [] then Some(g)
    else if Enabled(g, schedule[0]) then Run(Step(g, schedule[0]), schedule[1..])
    else None
  }

  lemma StepKeepsInv(g: Gate, e: Event)
    requires Inv(g) && Enabled(g, e)
    ensures Inv(Step(g, e))
  {
    match e
    case Admit(i) => CountInsideUpdate(g.callers, i, Inside);
    case Finish(i) => CountInsideUpdate(g.callers, i, Done);
  }

  /**
   * Along every schedule that can happen, the number of callers inside the
   * delegated call equals the channel's length and never exceeds the capacity.
   */
  lemma {:induction false} RunKeepsInv(g: Gate, schedule: seq<Event>)
    requires Inv(g)
    ensures Run(g, schedule).Some? ==> Inv(Run(g, schedule).value)
    ensures Run(g, schedule).Some? ==> CountInside(Run(g, schedule).value.callers) <= g.capacity
    decreases |schedule|
  {
    if schedule != [] && Enabled(g, schedule[0]) {
      StepKeepsInv(g, schedule[0]);
      RunKeepsInv(Step(g, schedule[0]), schedule[1..]);
    }
  }

  /** A release never blocks: a caller inside always holds a buffered value. */
  lemma FinishNeverBlocks(g: Gate, i: nat)
    requires Inv(g) && i < |g.callers| && g.callers[i] == Inside
    ensures Enabled(g, Finish(i))
  {
    SomeInside(g.callers, i);
  }

  /** With every slot held by a caller inside, no further caller is admitted. */
  lemma FullGateBlocks(g: Gate, i: nat)
    requires Inv(g) && CountInside(g.callers) == g.capacity
    ensures !Enabled(g, Admit(i))
  {
  }

  /** A release frees a slot for any caller still waiting. */
  lemma FinishAdmitsWaiter(g: Gate, i: nat, j: nat)
    requires Inv(g) && Enabled(g, Finish(i))
    requires j < |g.callers| && g.callers[j] == Waiting
    ensures Enabled(Step(g, Finish(i)), Admit(j))
  {
  }

  /** Once no caller is inside, every acquire has been matched by its release. */
  lemma AllReleased(g: Gate)
    requires Inv(g)
    requires forall i :: 0 <= i < |g.callers| ==> g.callers[i] != Inside
    ensures g.occupancy == 0
  {
    NoneInside(g.callers);
  }

  /**
   * Three calls on a limiter of two slots: the first two are admitted at once, the
   * third waits, and it is admitted after one of the first two has released.
   */
  lemma TwoSlotsThreeCallers()
    ensures Run(Start(2, 3), [Admit(0), Admit(1)]).Some?
    ensures !Enabled(Run(Start(2, 3), [Admit(0), Admit(1)]).value, Admit(2))
    ensures Run(Start(2, 3), [Admit(0), Admit(1), Admit(2)]).None?
    ensures Run(Start(2, 3), [Admit(0), Admit(1), Finish(0), Admit(2)]).Some?
  {
  }
}
