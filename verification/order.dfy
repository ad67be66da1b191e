/** The Order aggregate of src/order.rs: its lifecycle state, commands, events
    and errors, the event fold (`apply_first`, `apply_next`) and the command
    decisions (`handle_first`, `handle_next`). */
module Orders {
  import opened Results
  import opened Items

  /** A `DateTime<Utc>` instant. The model only carries and compares instants;
      it gives them no calendar meaning. */
  type Timestamp = int

  /** The lifecycle of an order; exactly one variant holds at a time. */
  datatype OrderState =
    | Editable(updatedAt: Timestamp)
    | Complete(at: Timestamp)
    | Cancelled(at: Timestamp)

  datatype Order = Order(id: string, createdAt: Timestamp, items: seq<OrderItem>, state: OrderState)

  datatype OrderCommand =
    | Create
    | AddItem(item: OrderItem)
    | Complete
    | Cancel

  datatype OrderEvent =
    | Created(id: string, at: Timestamp)
    | ItemAdded(item: OrderItem, at: Timestamp)
    | Completed(at: Timestamp)
    | Cancelled(at: Timestamp)

  datatype OrderError =
    | AlreadyCreated
    | NotYetCreated
    | NotEditable
    | AlreadyCompleted
    | AlreadyCancelled

  /** `Order::is_editable`. */
  predicate IsEditable(order: Order) {
    match order.state
    case Editable(_) => true
    case _ => false
  }

  /** `OrderEvent::happened_at`: the instant every event variant carries. */
  function HappenedAt(event: OrderEvent): Timestamp {
    match event
    case Created(_, at) => at
    case ItemAdded(_, at) => at
    case Completed(at) => at
    case Cancelled(at) => at
  }

  /** The instant recorded by a lifecycle state. */
  function StateTime(state: OrderState): Timestamp {
    match state
    case Editable(t) => t
    case Complete(t) => t
    case Cancelled(t) => t
  }

  /** The error the fold reports when `event` cannot be applied in lifecycle
      state `state`, as a table over (event kind, state kind). */
  function Rejection(state: OrderState, event: OrderEvent): OrderError {
    match event
    case Created(_, _) => AlreadyCreated
    case ItemAdded(_, _) => NotEditable
    case Completed(_) => if state.Complete? then AlreadyCompleted else NotEditable
    case Cancelled(_) => if state.Cancelled? then AlreadyCancelled else NotEditable
  }

  /** `apply_first`: only a creation event can start an order. */
  function ApplyFirst(event: OrderEvent): (r: Result<Order, OrderError>)
    ensures r.Ok? <==> event.Created?
    ensures r.Ok? ==>
      && r.value.id == event.id
      && r.value.createdAt == HappenedAt(event)
      && r.value.items == []
      && r.value.state == OrderState.Editable(HappenedAt(event))
    ensures r.Err? ==> r.error == NotYetCreated
  {
    if event.Created? then
      Ok(Order(event.id, event.at, [], OrderState.Editable(event.at)))
    else
      Err(NotYetCreated)
  }

  /** `apply_next`: fold one more event onto an existing order. */
  function ApplyNext(order: Order, event: OrderEvent): (r: Result<Order, OrderError>)
    ensures r.Ok? <==> IsEditable(order) && !event.Created?
    ensures r.Err? ==> r.error == Rejection(order.state, event)
    ensures r.Ok? ==>
      && r.value.id == order.id
      && r.value.createdAt == order.createdAt
      && StateTime(r.value.state) == HappenedAt(event)
    ensures r.Ok? && event.ItemAdded? ==>
      r.value.state.Editable? && r.value.items == InsertOrMerge(order.items, event.item)
    ensures r.Ok? && event.Completed? ==> r.value.state.Complete? && r.value.items == order.items
    ensures r.Ok? && event.Cancelled? ==> r.value.state.Cancelled? && r.value.items == order.items
  {
    match event
    case Created(_, _) => Err(AlreadyCreated)
    case ItemAdded(item, at) =>
      if order.state.Editable? then
        Ok(order.(state := OrderState.Editable(at), items := InsertOrMerge(order.items, item)))
      else
        Err(NotEditable)
    case Completed(at) =>
      if order.state.Complete? then Err(AlreadyCompleted)
      else if order.state.Editable? then Ok(order.(state := OrderState.Complete(at)))
      else Err(NotEditable)
    case Cancelled(at) =>
      if order.state.Cancelled? then Err(AlreadyCancelled)
      else if order.state.Editable? then Ok(order.(state := OrderState.Cancelled(at)))
      else Err(NotEditable)
  }

  /** `event` is the event that `command` asks for. */
  predicate Answers(command: OrderCommand, event: OrderEvent) {
    match command
    case Create => event.Created?
    case AddItem(item) => event.ItemAdded? && event.item == item
    case Complete => event.Completed?
    case Cancel => event.Cancelled?
  }

  /** `handle_first`: with no order yet, only `Create` is accepted; it yields one
      creation event for `id`. `now` stands for the clock read. */
  function HandleFirst(id: string, command: OrderCommand, now: Timestamp): (r: Result<seq<OrderEvent>, OrderError>)
    ensures r.Ok? <==> command.Create?
    ensures r.Ok? ==> r.value == [OrderEvent.Created(id, now)]
    ensures r.Err? ==> r.error == NotYetCreated
  {
    if command.Create? then Ok([OrderEvent.Created(id, now)]) else Err(NotYetCreated)
  }

  /** `handle_next`: with an order present, `Create` is rejected and every other
      command yields exactly its own event stamped `now`. The order's state is
      not consulted; an illegal transition surfaces when the event is applied. */
  function HandleNext(id: string, order: Order, command: OrderCommand, now: Timestamp): (r: Result<seq<OrderEvent>, OrderError>)
    ensures r.Err? <==> command.Create?
    ensures r.Err? ==> r.error == AlreadyCreated
    ensures r.Ok? ==> |r.value| == 1 && Answers(command, r.value[0]) && HappenedAt(r.value[0]) == now
  {
    match command
    case Create => Err(AlreadyCreated)
    case AddItem(item) => Ok([OrderEvent.ItemAdded(item, now)])
    case Complete => Ok([OrderEvent.Completed(now)])
    case Cancel => Ok([OrderEvent.Cancelled(now)])
  }

  /** `is_editable` agrees with the fold: an order accepts an item exactly when
      it is editable. */
  lemma EditableIffAcceptsItems(order: Order, item: OrderItem, at: Timestamp)
    ensures IsEditable(order) <==> ApplyNext(order, OrderEvent.ItemAdded(item, at)).Ok?
  {
  }

  /** Complete and Cancelled are absorbing: no event applies to them. */
  lemma TerminalStatesAbsorb(order: Order, event: OrderEvent)
    requires order.state.Complete? || order.state.Cancelled?
    ensures ApplyNext(order, event).Err?
    ensures event.Completed? && order.state.Cancelled? ==> ApplyNext(order, event) == Err(NotEditable)
    ensures event.Cancelled? && order.state.Complete? ==> ApplyNext(order, event) == Err(NotEditable)
  {
  }

  /** Successful application stamps the lifecycle with `happened_at` and never
      leads back to Editable except by adding an item. */
  lemma ApplyStampsEventTime(order: Order, event: OrderEvent)
    requires ApplyNext(order, event).Ok?
    ensures StateTime(ApplyNext(order, event).value.state) == HappenedAt(event)
    ensures ApplyNext(order, event).value.state.Editable? <==> event.ItemAdded?
  {
  }

  /** The command handlers never inspect the order: two orders receive the
      same decision for the same command and clock reading. */
  lemma HandleNextIgnoresState(id: string, a: Order, b: Order, command: OrderCommand, now: Timestamp)
    ensures HandleNext(id, a, command, now) == HandleNext(id, b, command, now)
  {
  }
}
