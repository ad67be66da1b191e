/** `TotalOrdersProjection` of src/order.rs: running totals of created,
    completed and cancelled orders, fed by the event stream. */
module Projection {
  import opened Orders

  const Modulus: int := 0x1_0000_0000_0000_0000

  /** Rust's `u64`, the width of each counter. */
  newtype u64 = x: int | 0 <= x < 0x1_0000_0000_0000_0000

  datatype TotalOrdersProjection = TotalOrdersProjection(created: u64, completed: u64, cancelled: u64)

  /** The derived `Default`: every counter at zero. */
  const Empty: TotalOrdersProjection := TotalOrdersProjection(0, 0, 0)

  /** `+= 1` on a `u64` counter as a release build executes it. */
  function Increment(c: u64): (r: u64)
    ensures c as int < Modulus - 1 ==> r as int == c as int + 1
    ensures c as int == Modulus - 1 ==> r == 0
  {
    ((c as int + 1) % Modulus) as u64
  }

  /** The counters an event kind feeds; item additions feed none. */
  datatype Tally = CreatedTally | CompletedTally | CancelledTally

  function Counter(p: TotalOrdersProjection, t: Tally): u64 {
    match t
    case CreatedTally => p.created
    case CompletedTally => p.completed
    case CancelledTally => p.cancelled
  }

  predicate Counts(event: OrderEvent, t: Tally) {
    match t
    case CreatedTally => event.Created?
    case CompletedTally => event.Completed?
    case CancelledTally => event.Cancelled?
  }

  /** `project`: count one event. The error type is `Infallible`, so the result
      is the updated projection itself. */
  function Project(p: TotalOrdersProjection, event: OrderEvent): (r: TotalOrdersProjection)
    ensures forall t :: Counter(r, t) == if Counts(event, t) then Increment(Counter(p, t)) else Counter(p, t)
  {
    match event
    case Created(_, _) => p.(created := Increment(p.created))
    case Completed(_) => p.(completed := Increment(p.completed))
    case Cancelled(_) => p.(cancelled := Increment(p.cancelled))
    case ItemAdded(_, _) => p
  }

  /** Feeding a stream to the projection one event at a time, in order. */
  function ProjectAll(p: TotalOrdersProjection, events: seq<OrderEvent>): TotalOrdersProjection
    decreases |events|
  {
    if |events| == 0 then p else ProjectAll(Project(p, events[0]), events[1..])
  }

  /** How many events of `events` a tally counts. */
  function Occurrences(events: seq<OrderEvent>, t: Tally): nat
    decreases |events|
  {
    if |events| == 0 then 0
    else (if Counts(events[0], t) then 1 else 0) + Occurrences(events[1..], t)
  }

  /** An item addition changes no counter, and every other event changes
      exactly one. */
  lemma ProjectTouchesOneCounter(p: TotalOrdersProjection, event: OrderEvent)
    ensures event.ItemAdded? ==> Project(p, event) == p
    ensures !event.ItemAdded? ==> exists t :: Counts(event, t) && Counter(Project(p, event), t) != Counter(p, t)
    ensures forall t :: !Counts(event, t) ==> Counter(Project(p, event), t) == Counter(p, t)
  {
    if !event.ItemAdded? {
      var t := match event
        case Created(_, _) => CreatedTally
        case Completed(_) => CompletedTally
        case _ => CancelledTally;
      assert Counts(event, t);
    }
  }

  /** Replay equivalence: projecting a concatenated stream is projecting its
      parts one after the other, so a projection rebuilt from the start equals
      the one maintained incrementally. */
  lemma {:induction false} ProjectAllConcat(p: TotalOrdersProjection, a: seq<OrderEvent>, b: seq<OrderEvent>)
    ensures ProjectAll(p, a + b) == ProjectAll(ProjectAll(p, a), b)
    decreases |a|
  {
    if |a| > 0 {
      assert (a + b)[0] == a[0];
      assert (a + b)[1..] == a[1..] + b;
      ProjectAllConcat(Project(p, a[0]), a[1..], b);
    } else {
      assert a + b == b;
    }
  }

  lemma ModShift(a: int, d: int, rest: int)
    requires 0 <= d <= 1
    ensures (((a + d) % Modulus) + rest) % Modulus == (a + d + rest) % Modulus
  {
    var q := (a + d) / Modulus;
    assert a + d == q * Modulus + (a + d) % Modulus;
    assert (a + d + rest) == ((a + d) % Modulus + rest) + q * Modulus;
  }

  /** Each counter equals, modulo 2^64, its starting value plus the number of
      events of its kind in the stream. */
  lemma {:induction false} ProjectAllCounts(p: TotalOrdersProjection, events: seq<OrderEvent>, t: Tally)
    ensures Counter(ProjectAll(p, events), t) as int == (Counter(p, t) as int + Occurrences(events, t)) % Modulus
    decreases |events|
  {
    if |events| == 0 {
    } else {
      var p' := Project(p, events[0]);
      var d := if Counts(events[0], t) then 1 else 0;
      ProjectAllCounts(p', events[1..], t);
      assert Counter(p', t) as int == (Counter(p, t) as int + d) % Modulus;
      ModShift(Counter(p, t) as int, d, Occurrences(events[1..], t));
    }
  }

  /** Rebuilding from the default projection counts each event kind exactly,
      as long as fewer than 2^64 events of that kind occurred. */
  lemma ProjectFromEmptyCounts(events: seq<OrderEvent>, t: Tally)
    requires Occurrences(events, t) < Modulus
    ensures Counter(ProjectAll(Empty, events), t) as int == Occurrences(events, t)
  {
    ProjectAllCounts(Empty, events, t);
  }
}
