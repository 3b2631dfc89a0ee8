# Per-configuration concurrency gate for the AI client

This project models `application/services/ai_service_concurrency.go`, the piece of the
service layer that limits how many AI calls may be in flight at once for each AI service
configuration. The source file has four parts, each modelled by a Dafny module, and a
fifth module looks at many callers at once:

- `Settings`: the settings record (`AIServiceSettings`) with its two optional fields,
  parsing of the empty settings blob, and the limit policy `concurrencyLimit`. The policy
  is a pure function: an explicit disable gives 1, an explicit enable gives 0 (no gate),
  otherwise a positive `max_concurrency` is the limit and anything else gives 0.
- `Limiting`: the limiter `aiConcurrencyLimiter`, a buffered channel of `limit` slots.
  It is modelled as a class with a fixed `capacity` and an `occupancy` counter, which
  stands for the number of values buffered in the channel. `acquire` adds one and the
  release function it returns takes one away.
- `Registry`: `getLimiterForConfig`. The process-wide map from configuration id to
  limiter becomes an object, `LimiterRegistry`. A lookup either returns no limiter, or
  the existing instance, compared by reference, or a fresh limiter that replaces the
  entry. A pure model of the same map, holding each id's capacity, lets lemmas talk
  about whole histories of lookups.
- `Clients`: `wrapAIClientWithLimiter` and the three methods of `limitedAIClient`. Each
  call acquires, delegates, then releases. It returns exactly what the wrapped client
  returns and leaves every limiter's occupancy where it was. A ghost trace records each
  watched limiter's occupancy at the moment the external client is reached. This shows
  that the delegate runs while the call holds its slot on every limiter on the way, and
  within capacity.
- `Admission`: many callers going through one limiter at once. A schedule interleaves
  their acquire and release steps. A step whose channel operation would block is not
  enabled. Along every schedule that can happen, the number of callers inside the
  delegated call equals the channel's length and never exceeds the capacity.

`Wrappers` holds `Option` (a Go pointer that may be nil), `Result` and `Error`.

## Model

| member | source | states |
|---|---|---|
| `Settings.ParseAIServiceSettings` | application/services/ai_service_concurrency.go:15-26 | the empty blob yields the record with both fields unset and no error, without reaching the JSON decoder; any other blob yields exactly the decoder's record or error |
| `Settings.ConcurrencyLimit` | application/services/ai_service_concurrency.go:28-42 | the limit is 1 exactly when the flag is explicitly false or, with no flag, the max is 1; it is 0 exactly when the flag is explicitly true or, with no flag, the max is unset or non-positive; any limit above 1 is the configured max, set with no flag; the limit is never negative |
| `Settings.DisabledSerialises` | application/services/ai_service_concurrency.go:29-31 | an explicit false gives limit 1 whatever the max holds |
| `Settings.EnabledIsUnbounded` | application/services/ai_service_concurrency.go:32-34 | an explicit true gives limit 0 whatever the max holds |
| `Settings.MaxUsedWithoutFlag` | application/services/ai_service_concurrency.go:35-41 | with no flag and a max present, a positive max is the limit and a non-positive one gives 0 |
| `Settings.FlagOverridesMax` | application/services/ai_service_concurrency.go:28-34 | once the flag is set, replacing the max by any value (or none) leaves the limit unchanged |
| `Settings.EmptyBlobIsUnbounded` | application/services/ai_service_concurrency.go:16-18 | parsing the empty blob succeeds with the unset record, whose limit is 0 |
| `Limiting.Limiter.constructor` | application/services/ai_service_concurrency.go:49-54 | a new limiter has the requested capacity and no slot in use |
| `Limiting.Limiter.Acquire` | application/services/ai_service_concurrency.go:56-57 | admission takes one free slot: occupancy grows by one and stays within capacity |
| `Limiting.Limiter.Release` | application/services/ai_service_concurrency.go:58-60 | the release function frees one slot: occupancy drops by one |
| `Registry.Apply` | application/services/ai_service_concurrency.go:70-85 | a non-positive limit leaves the map alone; otherwise the id ends up with a limiter of the requested capacity, every other id keeps its entry, and a request answered by the existing entry changes nothing |
| `Registry.ReplayAt` | application/services/ai_service_concurrency.go:78-84 | after any history of lookups an id has an entry exactly when it had one before or some lookup asked to gate it, and its capacity is the latest positive limit asked for it |
| `Registry.ReplayNeverShrinks` | application/services/ai_service_concurrency.go:82-83 | no history of lookups removes an entry |
| `Registry.ReuseAfterHistory` | application/services/ai_service_concurrency.go:78-80 | after any history, a lookup reuses the existing limiter exactly when the latest positive lookup for that id asked for the same limit |
| `Registry.RepeatReuses` | application/services/ai_service_concurrency.go:78-84 | right after a positive lookup, the same lookup is always answered by the existing entry |
| `Registry.LimiterRegistry.constructor` | application/services/ai_service_concurrency.go:63-68 | a new registry maps no id |
| `Registry.LimiterRegistry.GetLimiterForConfig` | application/services/ai_service_concurrency.go:70-85 | limit <= 0 gives no limiter and an unchanged map; an entry of the same limit is returned by reference with the map unchanged; otherwise a fresh limiter of that capacity with no slot in use is stored under the id, every other entry untouched, and returned |
| `Registry.LookupTwice` | application/services/ai_service_concurrency.go:78-80 | two lookups with the same id and limit return the identical instance, and no limiter exactly when the limit is non-positive |
| `Registry.LookupWithChangedLimit` | application/services/ai_service_concurrency.go:78-84 | a lookup with a different limit returns a distinct limiter of the new capacity, and the next lookup with that limit returns that same instance |
| `Clients.WrapAIClientWithLimiter` | application/services/ai_service_concurrency.go:92-100 | with no limiter the client itself comes back; either way the result reaches the same external client, and with a limiter its calls take one more slot on that limiter and exactly as many as before on every other limiter |
| `Clients.GenerateText` | application/services/ai_service_concurrency.go:92-105 | text generation through the AI client interface, gated or not: the text and the error are exactly the external client's for the same prompt, system prompt and options; every limiter on the way ends at its occupancy before the call; the trace records, for the moment the external client is reached, each watched limiter's occupancy before the call raised by the slots the call holds on it |
| `Clients.LimitedGenerateText` | application/services/ai_service_concurrency.go:102-106 | the gated method: the outcome is the wrapped client's, the external client is reached only while every limiter on the way holds the call's slot (recorded in the trace), and each slot is released before it returns |
| `Clients.GenerateImage` | application/services/ai_service_concurrency.go:92-111 | image generation through the AI client interface: the image list and the error are exactly the external client's, occupancies are restored, and the trace records the slots held when the external client is reached |
| `Clients.LimitedGenerateImage` | application/services/ai_service_concurrency.go:108-112 | the gated method: the outcome is the wrapped client's, the external client is reached while every limiter on the way holds the call's slot, and each slot is released before it returns |
| `Clients.TestConnection` | application/services/ai_service_concurrency.go:92-117 | the connection test through the AI client interface: the error is exactly the external client's, occupancies are restored, and the trace records the slots held when the external client is reached |
| `Clients.LimitedTestConnection` | application/services/ai_service_concurrency.go:114-118 | the gated method: the error is the wrapped client's, the external client is reached while every limiter on the way holds the call's slot, and each slot is released before it returns |
| `Clients.HeldSlotsWithinCapacity` | application/services/ai_service_concurrency.go:56-61 | for a call that has room, the occupancies the trace records at the external client are above each limiter's occupancy before the call and within its capacity |
| `Admission.Start` | application/services/ai_service_concurrency.go:49-54 | a new limiter with callers about to acquire it has no slot in use and nobody inside |
| `Admission.StepKeepsInv` | application/services/ai_service_concurrency.go:56-60 | an acquire or a release that can happen keeps the channel's length equal to the number of callers inside and within capacity |
| `Admission.RunKeepsInv` | application/services/ai_service_concurrency.go:56-61 | along every schedule of acquires and releases that can happen, at most capacity callers are ever inside the delegated call at once |
| `Admission.FinishNeverBlocks` | application/services/ai_service_concurrency.go:58-60 | a caller inside can always release: the channel holds a value for it |
| `Admission.FullGateBlocks` | application/services/ai_service_concurrency.go:57 | with every slot held, no further caller is admitted |
| `Admission.FinishAdmitsWaiter` | application/services/ai_service_concurrency.go:56-60 | after a release, any waiting caller can be admitted |
| `Admission.AllReleased` | application/services/ai_service_concurrency.go:102-106 | once no caller is inside, the occupancy is back to 0 |
| `Admission.TwoSlotsThreeCallers` | application/services/ai_service_concurrency.go:56-61 | with two slots and three callers, the first two are admitted, the third cannot be until one of them releases, and then it is |

## Left out

- The JSON decoding in `parseAIServiceSettings` (`encoding/json`) is a parameter, `decodeJson`. Only the empty-blob branch is modelled. On a decode error the Go code also returns the zero record next to the error; the model returns only the error.
- The registry's mutex and its process-wide global variable are not modelled. `LimiterRegistry` is an ordinary object whose methods run one at a time.
- Limiting.Limiter.Acquire: requires a free slot instead of blocking until one frees up. Waiting itself, and the fairness of the channel among waiters, are not modelled. `Admission` covers who may be admitted at each point, but no liveness.
- Clients.GenerateText: requires a free slot on every limiter the call passes (`HasRoom`) instead of waiting for one. The same holds for `Clients.GenerateImage`, `Clients.TestConnection` and their `Limited` counterparts.
- The external AI client (`ai.AIClient`) is modelled by three total functions of the call's arguments. Its network behaviour is not modelled, and two calls with the same arguments are taken to give the same outcome. A panic inside the delegate, after which the deferred release still runs, is not modelled.
- The request modifiers of `GenerateText` are opaque tokens. They are forwarded and never inspected.
- Configuration ids are `uint` in Go. They are unbounded naturals here, and the limit is an unbounded integer; nothing in the code depends on their width.
- `Admission` keeps its own copy of the channel counter, because it reasons about an interleaving of many callers, while the `Clients` methods each run one caller start to finish. Its `Admit` step is the `Acquire` that a `Limited` method performs before its trace entry, and its `Finish` step is the release that follows the delegated call. The one-caller bound, that the call holds its slot within capacity while the external client runs, is proved on `Limiting.Limiter` itself through the trace (`Clients.HeldSlotsWithinCapacity`).
- The trace (`Clients.Trace`) is ghost bookkeeping that records the limiters' occupancies when the external client is reached. It has no counterpart in the source.
