# Order aggregate — a Dafny model

This project models the Order aggregate of an event-sourced example
application (`src/order.rs`). An order's state is never stored. It is
rebuilt by folding its event stream:

- `apply_first` turns the creation event into a fresh order.
- `apply_next` folds every later event onto it.

Commands (`Create`, `AddItem`, `Complete`, `Cancel`) are turned into proposed
events by `handle_first` (no order yet) and `handle_next` (order present). A
separate read model, `TotalOrdersProjection`, counts created, completed and
cancelled orders from the same events. The lifecycle is Editable → Complete
or Editable → Cancelled, and Complete and Cancelled are absorbing.

Files and modules:

- `result.dfy` — `Results`: `Option` and `Result`, after their Rust namesakes.
- `items.dfy` — `Items`: `OrderItem`, the `u8` quantity, and `insert_or_merge`
  with a structurally recursive reference definition proved equal to it.
- `order.dfy` — `Orders`: `OrderState`, `Order`, `OrderCommand`, `OrderEvent`,
  `OrderError`, and `is_editable`, `happened_at`, `apply_first`, `apply_next`,
  `handle_first`, `handle_next`.
- `projection.dfy` — `Projection`: `TotalOrdersProjection` with `u64` counters,
  `project`, and the fold of a stream through it.
- `replay.dfy` — `EventReplay`: a harness, not a model of source code. The
  replay loop (first event through `apply_first`, later ones through
  `apply_next`, stopping at the first error) and the replay-decide-fold
  cycle around a command belong to the aggregate library the application
  builds on. That library is not part of this model. `ReplayFrom`,
  `ReplayOnto`, `Replay`, `Decide` and `Execute` restate that driver so
  that properties over whole streams can be stated. Its lemmas are about
  the aggregate.
- `scenarios.dfy` — `Scenarios`: worked command histories pinned down as lemmas.

Modelling choices:

- `DateTime<Utc>` is an integer `Timestamp`. It is only carried and compared
  for equality.
- The clock read `Utc::now()` is the explicit parameter `now` of
  `HandleFirst`/`HandleNext`.
- The `f32` price is its 32-bit pattern (`bv32`). It is carried and never
  computed on.
- Quantities are `u8` and counters are `u64`. Both add as a release build
  does, wrapping around (see "Left out" for debug builds).
- The projection's error type is `Infallible`, so `Project` returns the
  updated projection directly.

## Model

| member | source | states |
|---|---|---|
| Items.AddQuantity | src/order.rs:56 | `quantity += item.quantity` on `u8`: the exact sum below 256, otherwise the sum minus 256 |
| Items.FindSku | src/order.rs:54-55 | the search finds the first line with the new item's SKU, or reports that no line has it |
| Items.InsertOrMerge | src/order.rs:53-63 | if the SKU is present, same length, only the first matching line changes (quantity added, position/price/SKU kept); otherwise the item is appended at the end |
| Items.InsertOrMergeIsReference | src/order.rs:53-63 | the merge equals an independent recursive definition: bump the first same-SKU line, or append |
| Items.InsertOrMergeSkus | src/order.rs:53-63 | the SKUs after the merge are the old SKUs plus the new one; a list with unique SKUs keeps unique SKUs |
| Items.InsertOrMergeQuantities | src/order.rs:53-63 | on a duplicate-free list, the new SKU's total quantity grows by the added quantity (mod 256) and every other SKU's total is unchanged |
| Orders.ApplyFirst | src/order.rs:159-170 | succeeds exactly on `Created`: the order has that id, `created_at` = its instant, no items, state Editable at that instant; every other event gives `NotYetCreated` |
| Orders.ApplyNext | src/order.rs:172-212 | succeeds exactly when the order is Editable and the event is not `Created`; id and creation time kept; lifecycle stamped with the event's instant; ItemAdded stays Editable and merges the item; Completed/Cancelled move to Complete/Cancelled with items unchanged; errors follow the (event, state) table: AlreadyCreated, NotEditable, AlreadyCompleted, AlreadyCancelled |
| Orders.EditableIffAcceptsItems | src/order.rs:97-103 | `is_editable` holds exactly when the fold accepts an item addition |
| Orders.TerminalStatesAbsorb | src/order.rs:186-210 | no event applies to a Complete or Cancelled order; completing a Cancelled one and cancelling a Complete one give `NotEditable` |
| Orders.ApplyStampsEventTime | src/order.rs:124-131 | after a successful step the lifecycle holds the event's `happened_at` instant, and is Editable exactly when the event was an item addition |
| Orders.HandleFirst | src/order.rs:214-230 | accepts only `Create`, producing exactly one `Created` for the given id at `now`; anything else gives `NotYetCreated` |
| Orders.HandleNext | src/order.rs:232-247 | `Create` gives `AlreadyCreated`; every other command gives exactly one event of its own kind (same item for AddItem) stamped `now` |
| Orders.HandleNextIgnoresState | src/order.rs:232-237 | the decision does not depend on the order passed in |
| Projection.Increment | src/order.rs:31-33 | a `u64` counter's `+= 1`: one more, except that the maximum wraps to zero |
| Projection.Project | src/order.rs:26-38 | each counter is incremented exactly when the event is of its kind and kept otherwise |
| Projection.ProjectTouchesOneCounter | src/order.rs:30-35 | ItemAdded changes nothing; every other event changes exactly its own counter and no other |
| Projection.ProjectAllConcat | src/order.rs:26-38 | projecting a concatenated stream equals projecting the parts one after the other (rebuild from scratch = incremental) |
| Projection.ProjectAllCounts | src/order.rs:15-38 | after a stream, each counter is its start value plus the number of events of its kind, modulo 2^64 |
| Projection.ProjectFromEmptyCounts | src/order.rs:14-38 | from the default projection, each counter equals the exact number of events of its kind (below 2^64) |
| EventReplay.ReplayFromAccepts | src/order.rs:172-212 | folding a tail succeeds exactly when it is empty, or the order is Editable, all but the last event are item additions and the last is not a creation |
| EventReplay.ReplayFromEffect | src/order.rs:172-212 | a successful fold keeps id and creation time, yields the merge of all added items, preserves unique SKUs, and its lifecycle kind and instant are those of the last event |
| EventReplay.TerminalFoldIsEmpty | src/order.rs:186-210 | from Complete or Cancelled only the empty fold succeeds, and a non-empty one fails with the first event's rejection, so the state never returns to Editable |
| EventReplay.ReplayAccepts | src/order.rs:159-212 | a stream rebuilds an order exactly when it is a creation followed by an accepted tail; an empty stream rebuilds nothing; a stream not opening with creation fails with `NotYetCreated` |
| EventReplay.ReplayedOrder | src/order.rs:159-212 | a rebuilt order has its creation event's id and instant, the merge of all added items with no SKU twice, and the last event's instant |
| EventReplay.ExecuteAppends | src/order.rs:214-247 | the events a successful command proposes, appended to the history, replay to the state the command reports |
| EventReplay.ExecuteOnEmptyHistory | src/order.rs:214-230 | with no history only `Create` succeeds, yielding an empty Editable order created at `now`; other commands give `NotYetCreated` |
| EventReplay.ExecuteOnOrder | src/order.rs:172-247 | on an existing order a command succeeds exactly when it is not `Create` and the order is Editable; otherwise the error follows the (command, state) table |
| Scenarios.DuplicateSkuMerges | src/order.rs:53-63 | adding SKU A with 2 units, then 3, leaves one line of 5 units |
| Scenarios.CompletedOrderIsClosed | src/order.rs:172-247 | Create, AddItem X, Complete gives a Complete order holding X; later AddItem or Cancel gives `NotEditable` |
| Scenarios.DoubleCancel | src/order.rs:199-210 | Create, Cancel, Cancel: the second Cancel gives `AlreadyCancelled` |
| Scenarios.DoubleComplete | src/order.rs:186-210 | Create, Complete, Complete gives `AlreadyCompleted`; a Cancel then gives `NotEditable`, not `AlreadyCancelled` |
| Scenarios.ProjectionTally | src/order.rs:26-38 | Created, Completed, ItemAdded projects to created 1, completed 1, cancelled 0 |

## Left out

- Items.AddQuantity: models release builds, where `u8` addition wraps. A debug build panics when the sum exceeds 255, and that panic is not modelled.
- Projection.Increment: models release builds, where the `u64` counter wraps. A debug build panics at the maximum, and that panic is not modelled.
- `Utc::now()` (src/order.rs:225, 241-245) is replaced by the `now` parameter. Wall-clock semantics, and resampling the clock on retry, are not modelled.
- `price: f32` (src/order.rs:45) is an opaque bit pattern, because nothing in the core computes on it.
- The async plumbing (`async_trait`, `BoxFuture`, `future::ok(()).boxed()`) is dropped, because it carries no logic.
- The `Persisted` wrapper and `event.take()` (src/order.rs:28-30) come from the aggregate library. The projection takes a bare `OrderEvent`.
- serde attributes and serialization are left out, because the wire format belongs to the transport layer.
- The error display strings (src/order.rs:136-145) are not modelled. As written they are swapped: `AlreadyCompleted` reads "already been cancelled" and `AlreadyCancelled` reads "already been completed". The variants behave as coded.
- The accessors `created_at`, `items` and `state` (src/order.rs:85-95) are the destructors of the `Order` datatype.
- The `id` argument of `handle_next` is unused in the source and unused in the model.
- Determinism of replay needs no lemma: every fold here is a Dafny function.
- The projection never looks at an event's source identity. So `ProjectAllConcat` covers any interleaving of streams from different orders, once that interleaving is fixed as one stream.
- Not modelled: the event store, optimistic-concurrency versioning and retry, the projection subscription, the HTTP transport, and process startup (src/main.rs). These are external collaborators with no logic in the core.
