/**
 * The gating decorator `wrapAIClientWithLimiter` and the three methods of
 * `limitedAIClient`: acquire the limiter, delegate the call, release the limiter,
 * and hand back the delegate's outcome untouched.
 */
module Clients {
  import opened Wrappers
  import opened Limiting

  /** A request modifier passed to text generation; it is forwarded and never inspected. */
  datatype RequestOption = RequestOption(name: string)

  /**
   * The external AI client that does the real work. Its three operations are
   * given as functions of their arguments; what they compute is not modelled.
   */
  datatype Backend = Backend(
    generateText: (string, string, seq<RequestOption>) -> (string, Option<Error>),
    generateImage: (string, string, int) -> (seq<string>, Option<Error>),
    testConnection: () -> Option<Error>)

  /**
   * Something that satisfies the AI client interface: the external client itself,
   * or a `limitedAIClient` around any client and one limiter.
   */
  datatype AIClient =
    | Direct(backend: Backend)
    | Limited(client: AIClient, limiter: Limiter)

  /** The external client that finally answers every call made through `c`. */
  function Delegate(c: AIClient): Backend
  {
    match c
    case Direct(backend) => backend
    case Limited(inner, _) => Delegate(inner)
  }

  /** The limiters a call through `c` passes. */
  ghost function Gates(c: AIClient): set<Limiter>
  {
    match c
    case Direct(_) => {}
    case Limited(inner, limiter) => Gates(inner) + {limiter}
  }

  /** How many times a call through `c` passes limiter `l`: the slots it takes there. */
  ghost function Passes(c: AIClient, l: Limiter): nat
  {
    match c
    case Direct(_) => 0
    case Limited(inner, limiter) => Passes(inner, l) + (if l == limiter then 1 else 0)
  }

  /** A limiter is on the way of a call exactly when the call takes a slot there. */
  lemma {:induction false} GatesArePassed(c: AIClient, l: Limiter)
    ensures l in Gates(c) <==> Passes(c, l) > 0
  {
    match c
    case Direct(_) =>
    case Limited(inner, _) => GatesArePassed(inner, l);
  }

  /**
   * A call through `c` can be admitted without waiting: every limiter on the way
   * has a free slot for each time the call passes it.
   */
  ghost predicate HasRoom(c: AIClient)
    reads Gates(c)
  {
    forall l :: l in Gates(c) ==> l.Valid() && l.occupancy + Passes(c, l) <= l.capacity
  }

  /**
   * `wrapAIClientWithLimiter`: without a limiter the client itself comes back;
   * with one, a gated client whose calls reach the same external client and take
   * one more slot on the new limiter.
   */
  function WrapAIClientWithLimiter(client: AIClient, limiter: Limiter?): (wrapped: AIClient)
    ensures limiter == null ==> wrapped == client
    ensures Delegate(wrapped) == Delegate(client)
    ensures Gates(wrapped) == Gates(client) + (if limiter == null then {} else {limiter})
    ensures limiter != null ==> Passes(wrapped, limiter) == Passes(client, limiter) + 1
    ensures forall l :: l in Gates(client) && l != limiter ==> Passes(wrapped, l) == Passes(client, l)
  {
    if limiter == null then client else Limited(client, limiter)
  }

  /**
   * A ghost record of the moments the external client was reached: for each call
   * that got through to it, the occupancy of the watched limiters at that moment.
   */
  class Trace {
    ghost var log: seq<map<Limiter, nat>>

    constructor ()
      ensures log == []
    {
      log := [];
    }
  }

  /** The occupancy of each watched limiter in the current state (an unfolding; its ensures is bookkeeping). */
  ghost function Occupancies(watch: set<Limiter>): (m: map<Limiter, nat>)
    reads watch
    ensures m.Keys == watch
  {
    map l | l in watch :: l.occupancy
  }

  /**
   * Occupancies `before` a call through `c`, raised by the slots the call takes on its
   * way in (an unfolding; its ensures is bookkeeping).
   */
  ghost function Holding(before: map<Limiter, nat>, c: AIClient): (m: map<Limiter, nat>)
    ensures m.Keys == before.Keys
    ensures forall l :: l in before ==> m[l] == before[l] + Passes(c, l)
  {
    map l | l in before :: before[l] + Passes(c, l)
  }

  /** Taking the outer slot first and the inner ones later holds the same slots as taking them all. */
  lemma HoldingAfterOuterGate(before: map<Limiter, nat>, entered: map<Limiter, nat>, c: AIClient)
    requires c.Limited?
    requires entered.Keys == before.Keys
    requires forall l :: l in before ==> entered[l] == before[l] + (if l == c.limiter then 1 else 0)
    ensures Holding(entered, c.client) == Holding(before, c)
  {
  }

  /**
   * What a call records when it reaches the external client, taken from a state in
   * which it has room: every limiter it passes holds at least one more slot than
   * before the call, and none goes over its capacity.
   */
  lemma HeldSlotsWithinCapacity(c: AIClient, watch: set<Limiter>)
    requires HasRoom(c)
    ensures forall l :: l in Gates(c) && l in watch ==>
      Occupancies(watch)[l] < Holding(Occupancies(watch), c)[l] <= l.capacity
  {
    forall l | l in Gates(c) && l in watch
      ensures Occupancies(watch)[l] < Holding(Occupancies(watch), c)[l] <= l.capacity
    {
      GatesArePassed(c, l);
    }
  }

  /**
   * Once the outermost limiter of a gated client has admitted the call, the rest of
   * the call still finds room on every limiter it passes.
   */
  twostate lemma RoomAfterAcquire(c: AIClient)
    requires c.Limited?
    requires forall l :: l in Gates(c) ==> old(allocated(l))
    requires old(HasRoom(c))
    requires forall l :: l in Gates(c) && l != c.limiter ==> l.occupancy == old(l.occupancy)
    requires c.limiter.occupancy == old(c.limiter.occupancy) + 1
    ensures HasRoom(c.client)
  {
  }

  /**
   * `GenerateText` through the AI client interface: the external client's own for an
   * ungated client, `limitedAIClient.GenerateText` for a gated one. The outcome is the
   * external client's; every limiter on the way ends where it began; and the trace
   * records that, when the external client is reached, each of those limiters
   * holds the call's slots on top of its occupancy before the call.
   */
  method GenerateText(c: AIClient, prompt: string, systemPrompt: string, options: seq<RequestOption>,
    ghost trace: Trace, ghost watch: set<Limiter>)
    returns (text: string, err: Option<Error>)
    requires forall l :: l in Gates(c) ==> allocated(l)
    requires forall l :: l in watch ==> allocated(l)
    requires HasRoom(c)
    modifies Gates(c), trace
    ensures (text, err) == Delegate(c).generateText(prompt, systemPrompt, options)
    ensures forall l :: l in Gates(c) ==> l.Valid() && l.occupancy == old(l.occupancy)
    ensures trace.log == old(trace.log) + [Holding(old(Occupancies(watch)), c)]
    decreases c, 1
  {
    match c
    case Direct(backend) =>
      ghost var before := Occupancies(watch);
      trace.log := trace.log + [Occupancies(watch)];
      assert Occupancies(watch) == Holding(before, c);
      var outcome := backend.generateText(prompt, systemPrompt, options);
      text, err := outcome.0, outcome.1;
    case Limited(_, _) =>
      text, err := LimitedGenerateText(c, prompt, systemPrompt, options, trace, watch);
  }

  /** `limitedAIClient.GenerateText`: acquire, delegate, release. */
  method LimitedGenerateText(c: AIClient, prompt: string, systemPrompt: string, options: seq<RequestOption>,
    ghost trace: Trace, ghost watch: set<Limiter>)
    returns (text: string, err: Option<Error>)
    requires c.Limited?
    requires forall l :: l in Gates(c) ==> allocated(l)
    requires forall l :: l in watch ==> allocated(l)
    requires HasRoom(c)
    modifies Gates(c), trace
    ensures (text, err) == Delegate(c).generateText(prompt, systemPrompt, options)
    ensures forall l :: l in Gates(c) ==> l.Valid() && l.occupancy == old(l.occupancy)
    ensures trace.log == old(trace.log) + [Holding(old(Occupancies(watch)), c)]
    decreases c, 0
  {
    ghost var before := Occupancies(watch);
    c.limiter.Acquire();
    RoomAfterAcquire(c);
    ghost var entered := Occupancies(watch);
    label Admitted:
    text, err := GenerateText(c.client, prompt, systemPrompt, options, trace, watch);
    HoldingAfterOuterGate(before, entered, c);
    assert c.limiter.occupancy == old@Admitted(c.limiter.occupancy);
    c.limiter.Release();
    forall l | l in Gates(c)
      ensures l.Valid() && l.occupancy == old(l.occupancy)
    {
      if l != c.limiter {
        assert l in Gates(c.client) && l.occupancy == old@Admitted(l.occupancy);
      }
    }
  }

  /**
   * `GenerateImage` through the AI client interface: the external client's own for an
   * ungated client, `limitedAIClient.GenerateImage` for a gated one. The outcome is the
   * external client's; every limiter on the way ends where it began; and the trace
   * records that, when the external client is reached, each of those limiters
   * holds the call's slots on top of its occupancy before the call.
   */
  method GenerateImage(c: AIClient, prompt: string, size: string, n: int,
    ghost trace: Trace, ghost watch: set<Limiter>)
    returns (images: seq<string>, err: Option<Error>)
    requires forall l :: l in Gates(c) ==> allocated(l)
    requires forall l :: l in watch ==> allocated(l)
    requires HasRoom(c)
    modifies Gates(c), trace
    ensures (images, err) == Delegate(c).generateImage(prompt, size, n)
    ensures forall l :: l in Gates(c) ==> l.Valid() && l.occupancy == old(l.occupancy)
    ensures trace.log == old(trace.log) + [Holding(old(Occupancies(watch)), c)]
    decreases c, 1
  {
    match c
    case Direct(backend) =>
      ghost var before := Occupancies(watch);
      trace.log := trace.log + [Occupancies(watch)];
      assert Occupancies(watch) == Holding(before, c);
      var outcome := backend.generateImage(prompt, size, n);
      images, err := outcome.0, outcome.1;
    case Limited(_, _) =>
      images, err := LimitedGenerateImage(c, prompt, size, n, trace, watch);
  }

  /** `limitedAIClient.GenerateImage`: acquire, delegate, release. */
  method LimitedGenerateImage(c: AIClient, prompt: string, size: string, n: int,
    ghost trace: Trace, ghost watch: set<Limiter>)
    returns (images: seq<string>, err: Option<Error>)
    requires c.Limited?
    requires forall l :: l in Gates(c) ==> allocated(l)
    requires forall l :: l in watch ==> allocated(l)
    requires HasRoom(c)
    modifies Gates(c), trace
    ensures (images, err) == Delegate(c).generateImage(prompt, size, n)
    ensures forall l :: l in Gates(c) ==> l.Valid() && l.occupancy == old(l.occupancy)
    ensures trace.log == old(trace.log) + [Holding(old(Occupancies(watch)), c)]
    decreases c, 0
  {
    ghost var before := Occupancies(watch);
    c.limiter.Acquire();
    RoomAfterAcquire(c);
    ghost var entered := Occupancies(watch);
    label Admitted:
    images, err := GenerateImage(c.client, prompt, size, n, trace, watch);
    HoldingAfterOuterGate(before, entered, c);
    assert c.limiter.occupancy == old@Admitted(c.limiter.occupancy);
    c.limiter.Release();
    forall l | l in Gates(c)
      ensures l.Valid() && l.occupancy == old(l.occupancy)
    {
      if l != c.limiter {
        assert l in Gates(c.client) && l.occupancy == old@Admitted(l.occupancy);
      }
    }
  }

  /**
   * `TestConnection` through the AI client interface: the external client's own for an
   * ungated client, `limitedAIClient.TestConnection` for a gated one. The outcome is the
   * external client's; every limiter on the way ends where it began; and the trace
   * records that, when the external client is reached, each of those limiters
   * holds the call's slots on top of its occupancy before the call.
   */
  method TestConnection(c: AIClient, ghost trace: Trace, ghost watch: set<Limiter>)
    returns (err: Option<Error>)
    requires forall l :: l in Gates(c) ==> allocated(l)
    requires forall l :: l in watch ==> allocated(l)
    requires HasRoom(c)
    modifies Gates(c), trace
    ensures err == Delegate(c).testConnection()
    ensures forall l :: l in Gates(c) ==> l.Valid() && l.occupancy == old(l.occupancy)
    ensures trace.log == old(trace.log) + [Holding(old(Occupancies(watch)), c)]
    decreases c, 1
  {
    match c
    case Direct(backend) =>
      ghost var before := Occupancies(watch);
      trace.log := trace.log + [Occupancies(watch)];
      assert Occupancies(watch) == Holding(before, c);
      err := backend.testConnection();
    case Limited(_, _) =>
      err := LimitedTestConnection(c, trace, watch);
  }

  /** `limitedAIClient.TestConnection`: acquire, delegate, release. */
  method LimitedTestConnection(c: AIClient, ghost trace: Trace, ghost watch: set<Limiter>)
    returns (err: Option<Error>)
    requires c.Limited?
    requires forall l :: l in Gates(c) ==> allocated(l)
    requires forall l :: l in watch ==> allocated(l)
    requires HasRoom(c)
    modifies Gates(c), trace
    ensures err == Delegate(c).testConnection()
    ensures forall l :: l in Gates(c) ==> l.Valid() && l.occupancy == old(l.occupancy)
    ensures trace.log == old(trace.log) + [Holding(old(Occupancies(watch)), c)]
    decreases c, 0
  {
    ghost var before := Occupancies(watch);
    c.limiter.Acquire();
    RoomAfterAcquire(c);
    ghost var entered := Occupancies(watch);
    label Admitted:
    err := TestConnection(c.client, trace, watch);
    HoldingAfterOuterGate(before, entered, c);
    assert c.limiter.occupancy == old@Admitted(c.limiter.occupancy);
    c.limiter.Release();
    forall l | l in Gates(c)
      ensures l.Valid() && l.occupancy == old(l.occupancy)
    {
      if l != c.limiter {
        assert l in Gates(c.client) && l.occupancy == old@Admitted(l.occupancy);
      }
    }
  }
}
