/** Replay and command dispatch. The loop that folds a stored stream through
    `apply_first`/`apply_next` and the read-decide-fold cycle around
    `handle_first`/`handle_next` belong to the aggregate library src/order.rs
    builds on, which is not part of this model. The functions below are a
    harness that restates that driver so that properties of the Order
    aggregate over whole event sequences can be stated; the lemmas are about
    the aggregate of src/order.rs. */
module EventReplay {
  import opened Results
  import opened Items
  import opened Orders

  /** Fold `events` onto an existing order with `apply_next`, in stream order,
      stopping at the first error. */
  function ReplayFrom(order: Order, events: seq<OrderEvent>): Result<Order, OrderError>
    decreases |events|
  {
    if |events| == 0 then Ok(order)
    else
      match ApplyNext(order, events[0])
      case Err(e) => Err(e)
      case Ok(next) => ReplayFrom(next, events[1..])
  }

  /** Fold `events` onto an optional current state: with no state the first
      event goes through `apply_first`. */
  function ReplayOnto(current: Option<Order>, events: seq<OrderEvent>): Result<Option<Order>, OrderError>
    decreases |events|
  {
    match current
    case Some(order) =>
      (match ReplayFrom(order, events)
       case Err(e) => Err(e)
       case Ok(next) => Ok(Some(next)))
    case None =>
      if |events| == 0 then Ok(None)
      else
        match ApplyFirst(events[0])
        case Err(e) => Err(e)
        case Ok(order) => ReplayOnto(Some(order), events[1..])
  }

  /** Rebuild an order from its whole stream; an empty stream means no order. */
  function Replay(events: seq<OrderEvent>): Result<Option<Order>, OrderError> {
    ReplayOnto(None, events)
  }

  /** Route a command to `handle_first` or `handle_next` by whether an order exists. */
  function Decide(current: Option<Order>, id: string, command: OrderCommand, now: Timestamp): Result<seq<OrderEvent>, OrderError> {
    match current
    case None => HandleFirst(id, command, now)
    case Some(order) => HandleNext(id, order, command, now)
  }

  /** One command against a stored stream: replay, decide, then fold the
      proposed events onto the state; on success, the proposed events and the
      resulting state. */
  function Execute(history: seq<OrderEvent>, id: string, command: OrderCommand, now: Timestamp)
    : Result<(seq<OrderEvent>, Option<Order>), OrderError>
  {
    match Replay(history)
    case Err(e) => Err(e)
    case Ok(current) =>
      match Decide(current, id, command, now)
      case Err(e) => Err(e)
      case Ok(events) =>
        match ReplayOnto(current, events)
        case Err(e) => Err(e)
        case Ok(next) => Ok((events, next))
  }

  /** The items an order holds after `events`, merged one `ItemAdded` at a time. */
  function MergeEvents(items: seq<OrderItem>, events: seq<OrderEvent>): seq<OrderItem>
    decreases |events|
  {
    if |events| == 0 then items
    else MergeEvents(if events[0].ItemAdded? then InsertOrMerge(items, events[0].item) else items, events[1..])
  }

  /** The event sequences an order in `order`'s state accepts: nothing at all,
      or, from an editable order, item additions optionally closed by one
      completion or cancellation. */
  ghost predicate AcceptedTail(order: Order, events: seq<OrderEvent>) {
    || |events| == 0
    || (&& IsEditable(order)
        && (forall i :: 0 <= i < |events| - 1 ==> events[i].ItemAdded?)
        && !events[|events| - 1].Created?)
  }

  /** A stream that replays to an order: a creation event followed by a tail
      the fresh editable order accepts. */
  ghost predicate ValidHistory(events: seq<OrderEvent>) {
    && |events| > 0
    && events[0].Created?
    && (forall i :: 1 <= i < |events| - 1 ==> events[i].ItemAdded?)
    && (|events| > 1 ==> !events[|events| - 1].Created?)
  }

  /** A non-empty stream is its first event through `apply_first`, then the
      rest through `apply_next`. */
  lemma ReplayUnfold(events: seq<OrderEvent>)
    requires |events| > 0
    ensures Replay(events) ==
      match ApplyFirst(events[0])
      case Err(e) => Err(e)
      case Ok(first) =>
        (match ReplayFrom(first, events[1..])
         case Err(e) => Err(e)
         case Ok(order) => Ok(Some(order)))
  {
    match ApplyFirst(events[0])
    case Err(_) =>
    case Ok(first) =>
      assert ReplayOnto(None, events) == ReplayOnto(Some(first), events[1..]);
  }

  lemma {:induction false} ReplayFromConcat(order: Order, a: seq<OrderEvent>, b: seq<OrderEvent>)
    ensures ReplayFrom(order, a + b) ==
      match ReplayFrom(order, a)
      case Err(e) => Err(e)
      case Ok(mid) => ReplayFrom(mid, b)
    decreases |a|
  {
    if |a| == 0 {
      assert a + b == b;
    } else {
      assert (a + b)[0] == a[0];
      assert (a + b)[1..] == a[1..] + b;
      match ApplyNext(order, a[0])
      case Err(_) =>
      case Ok(next) => ReplayFromConcat(next, a[1..], b);
    }
  }

  /** Replaying a stream in two pieces is replaying it whole: the state after
      `a` is the starting point for `b`. */
  lemma {:induction false} ReplayOntoConcat(current: Option<Order>, a: seq<OrderEvent>, b: seq<OrderEvent>)
    ensures ReplayOnto(current, a + b) ==
      match ReplayOnto(current, a)
      case Err(e) => Err(e)
      case Ok(mid) => ReplayOnto(mid, b)
    decreases |a|
  {
    match current
    case Some(order) => ReplayFromConcat(order, a, b);
    case None =>
      if |a| == 0 {
        assert a + b == b;
      } else {
        assert (a + b)[0] == a[0];
        assert (a + b)[1..] == a[1..] + b;
        match ApplyFirst(a[0])
        case Err(_) =>
        case Ok(order) => ReplayOntoConcat(Some(order), a[1..], b);
      }
  }

  /** One successful step of the fold moves acceptance to the rest of the tail. */
  lemma AcceptedTailStep(order: Order, events: seq<OrderEvent>, next: Order)
    requires |events| > 0 && ApplyNext(order, events[0]) == Ok(next)
    ensures AcceptedTail(order, events) <==> AcceptedTail(next, events[1..])
  {
    var tail := events[1..];
    ApplyStampsEventTime(order, events[0]);
    if |tail| > 0 {
      assert tail[|tail| - 1] == events[|events| - 1];
      if AcceptedTail(order, events) {
        forall i | 0 <= i < |tail| - 1 ensures tail[i].ItemAdded? {
          assert tail[i] == events[i + 1];
        }
      }
      if AcceptedTail(next, tail) {
        forall i | 0 <= i < |events| - 1 ensures events[i].ItemAdded? {
          if i > 0 { assert events[i] == tail[i - 1]; }
        }
      }
    }
  }

  /** A step the fold refuses leaves a tail outside `AcceptedTail`. */
  lemma AcceptedTailReject(order: Order, events: seq<OrderEvent>)
    requires |events| > 0 && ApplyNext(order, events[0]).Err?
    ensures !AcceptedTail(order, events)
  {
    if |events| > 1 && IsEditable(order) {
      assert !events[0].ItemAdded?;
    }
  }

  /** The fold accepts exactly the tails `AcceptedTail` describes. */
  lemma {:induction false} ReplayFromAccepts(order: Order, events: seq<OrderEvent>)
    ensures ReplayFrom(order, events).Ok? <==> AcceptedTail(order, events)
    decreases |events|
  {
    if |events| > 0 {
      match ApplyNext(order, events[0])
      case Err(_) =>
        AcceptedTailReject(order, events);
      case Ok(next) =>
        ReplayFromAccepts(next, events[1..]);
        AcceptedTailStep(order, events, next);
    }
  }

  /** What a successful fold keeps and what it produces: identity and creation
      time are untouched, the items are the merge of every added item, a
      duplicate-free item list stays duplicate-free, and the lifecycle records
      the last event's kind and instant. */
  lemma {:induction false} ReplayFromEffect(order: Order, events: seq<OrderEvent>)
    requires ReplayFrom(order, events).Ok?
    ensures ReplayFrom(order, events).value.id == order.id
    ensures ReplayFrom(order, events).value.createdAt == order.createdAt
    ensures ReplayFrom(order, events).value.items == MergeEvents(order.items, events)
    ensures UniqueSkus(order.items) ==> UniqueSkus(ReplayFrom(order, events).value.items)
    ensures |events| == 0 ==> ReplayFrom(order, events).value == order
    ensures |events| > 0 ==>
      var last := events[|events| - 1];
      var s := ReplayFrom(order, events).value.state;
      && StateTime(s) == HappenedAt(last)
      && (s.Editable? <==> last.ItemAdded?)
      && (s.Complete? <==> last.Completed?)
      && (s.Cancelled? <==> last.Cancelled?)
    decreases |events|
  {
    if |events| > 0 {
      var next := ApplyNext(order, events[0]).value;
      ReplayFromEffect(next, events[1..]);
      if events[0].ItemAdded? {
        InsertOrMergeSkus(order.items, events[0].item);
      }
      if |events| > 1 {
        assert events[1..][|events[1..]| - 1] == events[|events| - 1];
      }
    }
  }

  /** Complete and Cancelled absorb every further event: from them the only
      successful fold is the empty one, so the lifecycle never returns to
      Editable. */
  lemma TerminalFoldIsEmpty(order: Order, events: seq<OrderEvent>)
    requires !IsEditable(order)
    ensures ReplayFrom(order, events).Ok? <==> |events| == 0
    ensures |events| > 0 ==> ReplayFrom(order, events) == Err(Rejection(order.state, events[0]))
  {
    ReplayFromAccepts(order, events);
  }

  /** A stream rebuilds an order exactly when it is a valid history; an empty
      stream rebuilds nothing, and a stream that does not open with creation
      fails with `NotYetCreated`. */
  lemma ReplayAccepts(events: seq<OrderEvent>)
    ensures Replay(events) == Ok(None) <==> |events| == 0
    ensures (Replay(events).Ok? && Replay(events).value.Some?) <==> ValidHistory(events)
    ensures |events| > 0 && !events[0].Created? ==> Replay(events) == Err(NotYetCreated)
  {
    if |events| > 0 {
      ReplayUnfold(events);
    }
    if |events| > 0 && events[0].Created? {
      var first := ApplyFirst(events[0]).value;
      var tail := events[1..];
      ReplayFromAccepts(first, tail);
      assert forall i :: 0 <= i < |tail| - 1 ==> tail[i] == events[i + 1];
      if ValidHistory(events) && |tail| > 0 {
        assert tail[|tail| - 1] == events[|events| - 1];
        assert AcceptedTail(first, tail);
      }
      if AcceptedTail(first, tail) && |tail| > 0 {
        forall i | 1 <= i < |events| - 1 ensures events[i].ItemAdded? {
          assert events[i] == tail[i - 1];
        }
        assert tail[|tail| - 1] == events[|events| - 1];
      }
    }
  }

  /** Every rebuilt order carries its creation event's id and instant, holds
      the merge of all added items with no SKU twice, and its lifecycle
      records the last event's instant. */
  lemma ReplayedOrder(events: seq<OrderEvent>)
    requires Replay(events).Ok? && Replay(events).value.Some?
    ensures events[0].Created?
    ensures Replay(events).value.value.id == events[0].id
    ensures Replay(events).value.value.createdAt == HappenedAt(events[0])
    ensures Replay(events).value.value.items == MergeEvents([], events[1..])
    ensures UniqueSkus(Replay(events).value.value.items)
    ensures StateTime(Replay(events).value.value.state) == HappenedAt(events[|events| - 1])
  {
    ReplayAccepts(events);
    ReplayUnfold(events);
    var first := ApplyFirst(events[0]).value;
    ReplayFromEffect(first, events[1..]);
    if |events| > 1 {
      assert events[1..][|events| - 2] == events[|events| - 1];
    }
  }

  /** The error a command meets on an existing order, as a table over
      (command kind, lifecycle state). */
  function CommandRejection(state: OrderState, command: OrderCommand): OrderError {
    match command
    case Create => AlreadyCreated
    case AddItem(_) => NotEditable
    case Complete => if state.Complete? then AlreadyCompleted else NotEditable
    case Cancel => if state.Cancelled? then AlreadyCancelled else NotEditable
  }

  /** The proposed events of a successful command, appended to the history,
      replay to the state the command reported. */
  lemma ExecuteAppends(history: seq<OrderEvent>, id: string, command: OrderCommand, now: Timestamp)
    requires Execute(history, id, command, now).Ok?
    ensures Replay(history + Execute(history, id, command, now).value.0) ==
            Ok(Execute(history, id, command, now).value.1)
    ensures Execute(history, id, command, now).value.1.Some?
  {
    var current := Replay(history).value;
    var events := Decide(current, id, command, now).value;
    ReplayOntoConcat(None, history, events);
  }

  /** With no history only `Create` succeeds; it yields a fresh, empty,
      editable order for `id` created at `now`. */
  lemma ExecuteOnEmptyHistory(id: string, command: OrderCommand, now: Timestamp)
    ensures Execute([], id, command, now).Ok? <==> command.Create?
    ensures command.Create? ==>
      Execute([], id, command, now) ==
        Ok(([OrderEvent.Created(id, now)], Some(Order(id, now, [], OrderState.Editable(now)))))
    ensures !command.Create? ==> Execute([], id, command, now) == Err(NotYetCreated)
  {
    assert Replay([]) == Ok(None);
    if command.Create? {
      var events := [OrderEvent.Created(id, now)];
      assert events[1..] == [];
      ReplayUnfold(events);
    }
  }

  /** On an existing order a command succeeds exactly when it is not `Create`
      and the order is editable; otherwise it fails with the error of the
      (command, state) table, so Complete and Cancelled orders refuse every
      command. */
  lemma ExecuteOnOrder(history: seq<OrderEvent>, id: string, command: OrderCommand, now: Timestamp)
    requires Replay(history).Ok? && Replay(history).value.Some?
    ensures var order := Replay(history).value.value;
      && (Execute(history, id, command, now).Ok? <==> !command.Create? && IsEditable(order))
      && (Execute(history, id, command, now).Err? ==>
            Execute(history, id, command, now).error == CommandRejection(order.state, command))
  {
    var order := Replay(history).value.value;
    if !command.Create? {
      var events := HandleNext(id, order, command, now).value;
      assert events[1..] == [];
      match ApplyNext(order, events[0])
      case Err(_) =>
      case Ok(next) =>
        assert ReplayFrom(next, events[1..]) == Ok(next);
    }
  }
}
