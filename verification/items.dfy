/** Order line items and the `insert_or_merge` extension on the item list
    (src/order.rs, `OrderItem` and `VecExt`). */
module Items {
  import opened Results

  /** Rust's `u8`, the width of an item quantity. */
  newtype u8 = x: int | 0 <= x < 0x100

  /** An `f32` price, kept as its IEEE-754 bit pattern: it is carried along and
      never computed on. */
  type Price = bv32

  datatype OrderItem = OrderItem(itemSku: string, quantity: u8, price: Price)

  /** `a += b` on `u8` as a release build executes it: the sum wraps modulo 256. */
  function AddQuantity(a: u8, b: u8): (r: u8)
    ensures a as int + b as int < 0x100 ==> r as int == a as int + b as int
    ensures a as int + b as int >= 0x100 ==> r as int == a as int + b as int - 0x100
  {
    ((a as int + b as int) % 0x100) as u8
  }

  /** The line `line` after `extra` more units of it were added. */
  function Bump(line: OrderItem, extra: u8): OrderItem {
    line.(quantity := AddQuantity(line.quantity, extra))
  }

  /** The SKUs that have a line in `items`. */
  function Skus(items: seq<OrderItem>): set<string> {
    set i | 0 <= i < |items| :: items[i].itemSku
  }

  /** No two lines of `items` share a SKU. */
  ghost predicate UniqueSkus(items: seq<OrderItem>) {
    forall i, j :: 0 <= i < j < |items| ==> items[i].itemSku != items[j].itemSku
  }

  /** Line `i` is the first line of `items` whose SKU is `sku`. */
  ghost predicate IsFirstMatch(items: seq<OrderItem>, sku: string, i: int) {
    && 0 <= i < |items|
    && items[i].itemSku == sku
    && forall j :: 0 <= j < i ==> items[j].itemSku != sku
  }

  /** The position of the first line with SKU `sku`, as `iter_mut().find` visits
      the list front to back. */
  function FindSku(items: seq<OrderItem>, sku: string): (r: Option<nat>)
    ensures r.Some? ==> IsFirstMatch(items, sku, r.value)
    ensures r.None? <==> sku !in Skus(items)
    decreases |items|
  {
    if |items| == 0 then None
    else if items[0].itemSku == sku then Some(0)
    else
      match FindSku(items[1..], sku)
      case None => None
      case Some(i) => Some(i + 1)
  }

  /** `insert_or_merge`: a new item whose SKU already has a line adds its quantity
      to the first such line, in place; otherwise it is appended. */
  function InsertOrMerge(items: seq<OrderItem>, item: OrderItem): (r: seq<OrderItem>)
    ensures item.itemSku in Skus(items) ==>
      && |r| == |items|
      && forall i :: 0 <= i < |items| ==>
           r[i] == if IsFirstMatch(items, item.itemSku, i) then Bump(items[i], item.quantity) else items[i]
    ensures item.itemSku !in Skus(items) ==> r == items + [item]
  {
    match FindSku(items, item.itemSku)
    case Some(i) => items[i := Bump(items[i], item.quantity)]
    case None => items + [item]
  }

  /** An independent, structurally recursive statement of the merge: walk the
      list, bump the first line with the same SKU, or append at the end. */
  function MergeReference(items: seq<OrderItem>, item: OrderItem): seq<OrderItem>
    decreases |items|
  {
    if |items| == 0 then [item]
    else if items[0].itemSku == item.itemSku then [Bump(items[0], item.quantity)] + items[1..]
    else [items[0]] + MergeReference(items[1..], item)
  }

  /** A new item whose SKU heads the list bumps the head line. */
  lemma InsertOrMergeAtHead(items: seq<OrderItem>, item: OrderItem)
    requires |items| > 0 && items[0].itemSku == item.itemSku
    ensures InsertOrMerge(items, item) == [Bump(items[0], item.quantity)] + items[1..]
  {
    assert IsFirstMatch(items, item.itemSku, 0);
    assert item.itemSku in Skus(items);
    assert forall i :: 1 <= i < |items| ==> !IsFirstMatch(items, item.itemSku, i);
  }

  /** A new item whose SKU differs from the head's leaves the head alone and
      merges into the rest of the list. */
  lemma InsertOrMergePastHead(items: seq<OrderItem>, item: OrderItem)
    requires |items| > 0 && items[0].itemSku != item.itemSku
    ensures InsertOrMerge(items, item) == [items[0]] + InsertOrMerge(items[1..], item)
  {
    var tail := items[1..];
    match FindSku(tail, item.itemSku)
    case None =>
      assert FindSku(items, item.itemSku) == None;
      assert items + [item] == [items[0]] + (tail + [item]);
    case Some(j) =>
      assert FindSku(items, item.itemSku) == Some(j + 1);
      assert items[j + 1 := Bump(items[j + 1], item.quantity)] == [items[0]] + tail[j := Bump(tail[j], item.quantity)];
  }

  lemma {:induction false} InsertOrMergeIsReference(items: seq<OrderItem>, item: OrderItem)
    ensures InsertOrMerge(items, item) == MergeReference(items, item)
    decreases |items|
  {
    if |items| == 0 {
    } else if items[0].itemSku == item.itemSku {
      InsertOrMergeAtHead(items, item);
    } else {
      InsertOrMergePastHead(items, item);
      InsertOrMergeIsReference(items[1..], item);
    }
  }

  /** Total quantity recorded for `sku` over all lines of `items`. */
  function QuantityOf(items: seq<OrderItem>, sku: string): int
    decreases |items|
  {
    if |items| == 0 then 0
    else (if items[0].itemSku == sku then items[0].quantity as int else 0) + QuantityOf(items[1..], sku)
  }

  lemma {:induction false} AbsentSkuHasNoQuantity(items: seq<OrderItem>, sku: string)
    requires sku !in Skus(items)
    ensures QuantityOf(items, sku) == 0
    decreases |items|
  {
    if |items| > 0 {
      assert items[0].itemSku in Skus(items);
      assert Skus(items[1..]) <= Skus(items) by {
        forall s | s in Skus(items[1..]) ensures s in Skus(items) {
          var i :| 0 <= i < |items[1..]| && items[1..][i].itemSku == s;
          assert items[i + 1].itemSku == s;
        }
      }
      AbsentSkuHasNoQuantity(items[1..], sku);
    }
  }

  lemma {:induction false} MergeReferenceSkus(items: seq<OrderItem>, item: OrderItem)
    ensures Skus(MergeReference(items, item)) == Skus(items) + {item.itemSku}
    decreases |items|
  {
    var r := MergeReference(items, item);
    if |items| == 0 {
      assert r[0].itemSku == item.itemSku;
    } else {
      SkusOfCons(items);
      SkusOfCons(r);
      if items[0].itemSku != item.itemSku {
        MergeReferenceSkus(items[1..], item);
        assert r[1..] == MergeReference(items[1..], item);
      } else {
        assert r[1..] == items[1..];
      }
    }
  }

  lemma {:induction false} MergeReferenceUnique(items: seq<OrderItem>, item: OrderItem)
    requires UniqueSkus(items)
    ensures UniqueSkus(MergeReference(items, item))
    decreases |items|
  {
    var r := MergeReference(items, item);
    if |items| > 0 {
      var tail := items[1..];
      if items[0].itemSku == item.itemSku {
        forall i, j | 0 <= i < j < |r| ensures r[i].itemSku != r[j].itemSku {
          assert r[i].itemSku == items[i].itemSku && r[j].itemSku == items[j].itemSku;
        }
      } else {
        assert UniqueSkus(tail) by {
          forall i, j | 0 <= i < j < |tail| ensures tail[i].itemSku != tail[j].itemSku {
            assert items[i + 1] == tail[i] && items[j + 1] == tail[j];
          }
        }
        MergeReferenceUnique(tail, item);
        MergeReferenceSkus(tail, item);
        var rt := MergeReference(tail, item);
        assert r == [items[0]] + rt;
        HeadSkuNotInTail(items);
        forall i, j | 0 <= i < j < |r| ensures r[i].itemSku != r[j].itemSku {
          if i == 0 {
            assert rt[j - 1].itemSku in Skus(rt);
          } else {
            assert rt[i - 1].itemSku != rt[j - 1].itemSku;
          }
        }
      }
    }
  }

  lemma {:induction false} MergeReferenceQuantity(items: seq<OrderItem>, item: OrderItem, sku: string)
    requires UniqueSkus(items)
    ensures QuantityOf(MergeReference(items, item), sku) ==
      if sku == item.itemSku then (QuantityOf(items, sku) + item.quantity as int) % 0x100
      else QuantityOf(items, sku)
    decreases |items|
  {
    var r := MergeReference(items, item);
    if |items| == 0 {
      assert r[1..] == [];
    } else {
      var tail := items[1..];
      if items[0].itemSku == item.itemSku {
        assert r[1..] == tail;
        HeadSkuNotInTail(items);
        AbsentSkuHasNoQuantity(tail, item.itemSku);
      } else {
        assert UniqueSkus(tail) by {
          forall i, j | 0 <= i < j < |tail| ensures tail[i].itemSku != tail[j].itemSku {
            assert items[i + 1] == tail[i] && items[j + 1] == tail[j];
          }
        }
        MergeReferenceQuantity(tail, item, sku);
        assert r[1..] == MergeReference(tail, item);
      }
    }
  }

  /** In a duplicate-free list the first line's SKU does not occur again. */
  lemma HeadSkuNotInTail(items: seq<OrderItem>)
    requires |items| > 0 && UniqueSkus(items)
    ensures items[0].itemSku !in Skus(items[1..])
  {
    forall k | 0 <= k < |items| - 1 ensures items[1..][k].itemSku != items[0].itemSku {
      assert items[1..][k] == items[k + 1];
    }
  }

  lemma SkusOfCons(xs: seq<OrderItem>)
    requires |xs| > 0
    ensures Skus(xs) == {xs[0].itemSku} + Skus(xs[1..])
  {
    forall s | s in Skus(xs) ensures s in {xs[0].itemSku} + Skus(xs[1..]) {
      var i :| 0 <= i < |xs| && xs[i].itemSku == s;
      if i > 0 { assert xs[1..][i - 1].itemSku == s; }
    }
    forall s | s in Skus(xs[1..]) ensures s in Skus(xs) {
      var i :| 0 <= i < |xs[1..]| && xs[1..][i].itemSku == s;
      assert xs[i + 1].itemSku == s;
    }
  }

  /** The merge leaves exactly one more SKU present (the new item's) and keeps
      a duplicate-free list duplicate-free. */
  lemma InsertOrMergeSkus(items: seq<OrderItem>, item: OrderItem)
    ensures Skus(InsertOrMerge(items, item)) == Skus(items) + {item.itemSku}
    ensures UniqueSkus(items) ==> UniqueSkus(InsertOrMerge(items, item))
  {
    InsertOrMergeIsReference(items, item);
    MergeReferenceSkus(items, item);
    if UniqueSkus(items) {
      MergeReferenceUnique(items, item);
    }
  }

  /** On a duplicate-free list the merge adds the new quantity, modulo 256, to
      the new item's SKU and leaves every other SKU's quantity alone. */
  lemma InsertOrMergeQuantities(items: seq<OrderItem>, item: OrderItem, sku: string)
    requires UniqueSkus(items)
    ensures QuantityOf(InsertOrMerge(items, item), sku) ==
      if sku == item.itemSku then (QuantityOf(items, sku) + item.quantity as int) % 0x100
      else QuantityOf(items, sku)
  {
    InsertOrMergeIsReference(items, item);
    MergeReferenceQuantity(items, item, sku);
  }
}
