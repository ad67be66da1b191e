/** Worked histories of one order, stated as lemmas over the model: each
    follows a command sequence through decision and fold and pins down the
    outcome. */
module Scenarios {
  import opened Results
  import opened Items
  import opened Orders
  import opened EventReplay
  import opened Projection

  /** Item "X", one unit, priced 9.99 (the bit pattern of that `f32`). */
  const ItemX: OrderItem := OrderItem("X", 1, 0x411F_D70A)

  /** Two additions of SKU "A" (2 units, then 3) leave one line of 5 units. */
  lemma DuplicateSkuMerges(price: Price)
    ensures
      var a2 := OrderItem("A", 2, price);
      var a3 := OrderItem("A", 3, price);
      Replay([OrderEvent.Created("o", 0), OrderEvent.ItemAdded(a2, 1), OrderEvent.ItemAdded(a3, 2)])
        == Ok(Some(Order("o", 0, [OrderItem("A", 5, price)], OrderState.Editable(2))))
  {
    var a2 := OrderItem("A", 2, price);
    var a3 := OrderItem("A", 3, price);
    var events := [OrderEvent.Created("o", 0), OrderEvent.ItemAdded(a2, 1), OrderEvent.ItemAdded(a3, 2)];
    ReplayUnfold(events);
    var first := Order("o", 0, [], OrderState.Editable(0));
    var o1 := Order("o", 0, [a2], OrderState.Editable(1));
    var o2 := Order("o", 0, [OrderItem("A", 5, price)], OrderState.Editable(2));
    assert InsertOrMerge([], a2) == [a2];
    assert InsertOrMerge([a2], a3) == [OrderItem("A", 5, price)] by {
      assert IsFirstMatch([a2], "A", 0);
    }
    assert events[1..][1..][1..] == [];
    assert ReplayFrom(o2, []) == Ok(o2);
    assert ReplayFrom(o1, events[1..][1..]) == Ok(o2);
    assert ReplayFrom(first, events[1..]) == Ok(o2);
  }

  /** Create, add X, complete: the order is Complete with the single line X,
      and a later AddItem or Cancel is refused with `NotEditable`. */
  lemma CompletedOrderIsClosed()
    ensures Execute([], "o", OrderCommand.Create, 0) ==
      Ok(([OrderEvent.Created("o", 0)], Some(Order("o", 0, [], OrderState.Editable(0)))))
    ensures Execute([OrderEvent.Created("o", 0)], "o", OrderCommand.AddItem(ItemX), 1).Ok?
    ensures
      var history := [OrderEvent.Created("o", 0), OrderEvent.ItemAdded(ItemX, 1)];
      Execute(history, "o", OrderCommand.Complete, 2) ==
        Ok(([OrderEvent.Completed(2)], Some(Order("o", 0, [ItemX], OrderState.Complete(2)))))
    ensures
      var history := [OrderEvent.Created("o", 0), OrderEvent.ItemAdded(ItemX, 1), OrderEvent.Completed(2)];
      && Execute(history, "o", OrderCommand.AddItem(ItemX), 3) == Err(NotEditable)
      && Execute(history, "o", OrderCommand.Cancel, 3) == Err(NotEditable)
  {
    ExecuteOnEmptyHistory("o", OrderCommand.Create, 0);
    var h1 := [OrderEvent.Created("o", 0)];
    var h2 := h1 + [OrderEvent.ItemAdded(ItemX, 1)];
    var h3 := h2 + [OrderEvent.Completed(2)];
    ReplayUnfold(h1);
    ReplayUnfold(h2);
    ReplayUnfold(h3);
    assert h1[1..] == [];
    assert h2[1..] == [OrderEvent.ItemAdded(ItemX, 1)];
    assert h3[1..] == [OrderEvent.ItemAdded(ItemX, 1), OrderEvent.Completed(2)];
    assert InsertOrMerge([], ItemX) == [ItemX];
    var first := Order("o", 0, [], OrderState.Editable(0));
    var o1 := Order("o", 0, [ItemX], OrderState.Editable(1));
    var o2 := Order("o", 0, [ItemX], OrderState.Complete(2));
    assert ReplayFrom(o1, h2[1..][1..]) == Ok(o1);
    assert ReplayFrom(first, h2[1..]) == Ok(o1);
    assert ReplayFrom(o2, h3[1..][1..][1..]) == Ok(o2);
    assert ReplayFrom(o1, h3[1..][1..]) == Ok(o2);
    assert ReplayFrom(first, h3[1..]) == Ok(o2);
    ExecuteOnOrder(h1, "o", OrderCommand.AddItem(ItemX), 1);
    ExecuteOnOrder(h3, "o", OrderCommand.AddItem(ItemX), 3);
    ExecuteOnOrder(h3, "o", OrderCommand.Cancel, 3);
  }

  /** Create, cancel, cancel: the second cancellation fails with
      `AlreadyCancelled`. */
  lemma DoubleCancel()
    ensures Execute([OrderEvent.Created("o", 0)], "o", OrderCommand.Cancel, 1).Ok?
    ensures Execute([OrderEvent.Created("o", 0), OrderEvent.Cancelled(1)], "o", OrderCommand.Cancel, 2)
      == Err(AlreadyCancelled)
  {
    var h1 := [OrderEvent.Created("o", 0)];
    var h2 := h1 + [OrderEvent.Cancelled(1)];
    ReplayUnfold(h1);
    ReplayUnfold(h2);
    assert h1[1..] == [];
    assert h2[1..] == [OrderEvent.Cancelled(1)];
    ExecuteOnOrder(h1, "o", OrderCommand.Cancel, 1);
    ExecuteOnOrder(h2, "o", OrderCommand.Cancel, 2);
  }

  /** Create, complete, complete: the second completion fails with
      `AlreadyCompleted`, and a cancellation then fails with `NotEditable`,
      not `AlreadyCancelled`. */
  lemma DoubleComplete()
    ensures Execute([OrderEvent.Created("o", 0)], "o", OrderCommand.Complete, 1).Ok?
    ensures
      var history := [OrderEvent.Created("o", 0), OrderEvent.Completed(1)];
      && Execute(history, "o", OrderCommand.Complete, 2) == Err(AlreadyCompleted)
      && Execute(history, "o", OrderCommand.Cancel, 3) == Err(NotEditable)
  {
    var h1 := [OrderEvent.Created("o", 0)];
    var h2 := h1 + [OrderEvent.Completed(1)];
    ReplayUnfold(h1);
    ReplayUnfold(h2);
    assert h1[1..] == [];
    assert h2[1..] == [OrderEvent.Completed(1)];
    ExecuteOnOrder(h1, "o", OrderCommand.Complete, 1);
    ExecuteOnOrder(h2, "o", OrderCommand.Complete, 2);
    ExecuteOnOrder(h2, "o", OrderCommand.Cancel, 3);
  }

  /** Created, Completed, ItemAdded through the projection: one created, one
      completed, none cancelled. */
  lemma ProjectionTally()
    ensures ProjectAll(Empty, [OrderEvent.Created("o", 0), OrderEvent.Completed(1), OrderEvent.ItemAdded(ItemX, 2)])
      == TotalOrdersProjection(1, 1, 0)
  {
    var events := [OrderEvent.Created("o", 0), OrderEvent.Completed(1), OrderEvent.ItemAdded(ItemX, 2)];
    assert events[1..][1..][1..] == [];
    assert ProjectAll(TotalOrdersProjection(1, 1, 0), events[1..][1..]) == TotalOrdersProjection(1, 1, 0);
    assert ProjectAll(TotalOrdersProjection(1, 0, 0), events[1..]) == TotalOrdersProjection(1, 1, 0);
  }
}
