/**
 * The order draft as a value: its line items, the operations the order form
 * applies to the item list (`addItem`, `removeItem`, `handleItemChange`), and
 * `calculateTotal`.
 */
module OrderDraft {
  import Numbers
  import Banks

  /** The size and unit options; the first of each is the default of a new item. */
  const Sizes: seq<string> := ["0.3cm以上", "0.5cm以上", "亞成成體", "無"]
  const Units: seq<string> := ["隻", "克", "個"]

  datatype Item = Item(id: nat, product: string, size: string, price: string, quantity: string, unit: string)

  /** The item fields an input can edit. */
  datatype Field = Product | Size | Price | Quantity | Unit

  datatype Draft = Draft(
    customerId: string,
    orderDate: string,
    items: seq<Item>,
    selectedBankId: string,
    shippingFee: string,   // the numeric initial value 0 is the string "0"
    remittanceAccount: string,
    orderNumber: string,
    timeItem: string)

  /** A blank item: no product, price or quantity, first size, first unit. */
  function DefaultItem(id: nat): (r: Item)
    ensures r.id == id && r.product == "" && r.price == ""
    ensures r.size in Sizes && r.unit in Units
    ensures Numbers.IntOr0(r.price) == 0
  {
    Item(id, "", Sizes[0], "", "", Units[0])
  }

  /** The draft when the form mounts; `today` is the month/day label the clock would give. */
  function InitialDraft(today: string, id: nat): (r: Draft)
    ensures r.orderDate == today && r.customerId == ""
    ensures r.items == [DefaultItem(id)]
    ensures Banks.Offered(r.selectedBankId)
    ensures Total(r.items, r.shippingFee) == 0
  {
    Numbers.EmptyAndZeroCountAsZero();
    assert SumPrices([DefaultItem(id)]) == 0 by {
      assert [DefaultItem(id)][..0] == [];
    }
    Draft("", today, [DefaultItem(id)], Banks.BankAccounts[0].id, "0", "", "", "")
  }

  function Get(item: Item, f: Field): string {
    match f
    case Product => item.product
    case Size => item.size
    case Price => item.price
    case Quantity => item.quantity
    case Unit => item.unit
  }

  /** The item with one field replaced by a new value. */
  function SetField(item: Item, f: Field, v: string): (r: Item)
    ensures r.id == item.id
    ensures Get(r, f) == v
    ensures forall g :: g != f ==> Get(r, g) == Get(item, g)
  {
    match f
    case Product => item.(product := v)
    case Size => item.(size := v)
    case Price => item.(price := v)
    case Quantity => item.(quantity := v)
    case Unit => item.(unit := v)
  }

  ghost predicate UniqueIds(items: seq<Item>) {
    forall i, j :: 0 <= i < j < |items| ==> items[i].id != items[j].id
  }

  ghost predicate HasId(items: seq<Item>, id: nat) {
    exists k :: 0 <= k < |items| && items[k].id == id
  }

  /** The list with the edit applied to every item carrying `id`, and every other item as it was. */
  function ChangeItems(items: seq<Item>, id: nat, f: Field, v: string): (r: seq<Item>)
    ensures |r| == |items|
    ensures forall i :: 0 <= i < |items| ==>
      r[i] == if items[i].id == id then SetField(items[i], f, v) else items[i]
  {
    if items == [] then []
    else [if items[0].id == id then SetField(items[0], f, v) else items[0]] + ChangeItems(items[1..], id, f, v)
  }

  /** An edit keeps every id where it was and touches only the named field. */
  lemma ChangeKeepsIdsAndOtherFields(items: seq<Item>, id: nat, f: Field, v: string, i: nat, g: Field)
    requires i < |items| && g != f
    ensures ChangeItems(items, id, f, v)[i].id == items[i].id
    ensures Get(ChangeItems(items, id, f, v)[i], g) == Get(items[i], g)
    ensures items[i].id == id ==> Get(ChangeItems(items, id, f, v)[i], f) == v
  {
  }

  /** An edit addressed to an id no item has leaves the list as it was. */
  lemma ChangeUnknownId(items: seq<Item>, id: nat, f: Field, v: string)
    requires !HasId(items, id)
    ensures ChangeItems(items, id, f, v) == items
  {
    var r := ChangeItems(items, id, f, v);
    assert forall i :: 0 <= i < |items| ==> r[i] == items[i];
  }

  /** The list without the items carrying `id`, in their original order. */
  function RemoveById(items: seq<Item>, id: nat): (r: seq<Item>)
    ensures |r| <= |items|
    ensures forall x :: x in r <==> x in items && x.id != id
  {
    if items == [] then []
    else if items[0].id == id then RemoveById(items[1..], id)
    else [items[0]] + RemoveById(items[1..], id)
  }

  /** Removing an id no item has changes nothing. */
  lemma {:induction false} RemoveAbsent(items: seq<Item>, id: nat)
    requires !HasId(items, id)
    ensures RemoveById(items, id) == items
  {
    if items != [] {
      assert !HasId(items[1..], id) by {
        forall k | 0 <= k < |items[1..]| ensures items[1..][k].id != id {
          assert items[1..][k] == items[k + 1];
        }
      }
      RemoveAbsent(items[1..], id);
      assert items == [items[0]] + items[1..];
    }
  }

  /** With unique ids, removing the id of item k removes exactly that item and keeps the others in order. */
  lemma {:induction false} RemoveUnique(items: seq<Item>, k: nat)
    requires UniqueIds(items) && k < |items|
    ensures RemoveById(items, items[k].id) == items[..k] + items[k + 1..]
  {
    var id := items[k].id;
    if k == 0 {
      assert !HasId(items[1..], id) by {
        forall j | 0 <= j < |items[1..]| ensures items[1..][j].id != id {
          assert items[1..][j] == items[j + 1];
        }
      }
      RemoveAbsent(items[1..], id);
    } else {
      var rest := items[1..];
      assert rest[k - 1] == items[k];
      assert UniqueIds(rest) by {
        forall i, j | 0 <= i < j < |rest| ensures rest[i].id != rest[j].id {
          assert rest[i] == items[i + 1] && rest[j] == items[j + 1];
        }
      }
      RemoveUnique(rest, k - 1);
      assert items[0].id != id;
      assert items[..k] == [items[0]] + rest[..k - 1];
      assert items[k + 1..] == rest[k..];
    }
  }

  /** Dropping one position from a list with unique ids keeps the ids unique. */
  lemma UniqueWithout(items: seq<Item>, k: nat)
    requires UniqueIds(items) && k < |items|
    ensures UniqueIds(items[..k] + items[k + 1..])
  {
    var r := items[..k] + items[k + 1..];
    forall i, j | 0 <= i < j < |r| ensures r[i].id != r[j].id {
      var i' := if i < k then i else i + 1;
      var j' := if j < k then j else j + 1;
      assert r[i] == items[i'] && r[j] == items[j'];
    }
  }

  /** With unique ids a removal drops at most one item. */
  lemma RemoveDropsAtMostOne(items: seq<Item>, id: nat)
    requires UniqueIds(items)
    ensures |RemoveById(items, id)| >= |items| - 1
    ensures HasId(items, id) ==> |RemoveById(items, id)| == |items| - 1
    ensures UniqueIds(RemoveById(items, id))
  {
    if HasId(items, id) {
      var k :| 0 <= k < |items| && items[k].id == id;
      RemoveUnique(items, k);
      UniqueWithout(items, k);
    } else {
      RemoveAbsent(items, id);
    }
  }

  /** The sum of the item prices, where a price that does not parse counts as 0. */
  function SumPrices(items: seq<Item>): int {
    if items == [] then 0 else SumPrices(items[..|items| - 1]) + Numbers.IntOr0(items[|items| - 1].price)
  }

  /** Prices that each count as non-negative give a non-negative sum. */
  lemma {:induction false} SumPricesNonNegative(items: seq<Item>)
    requires forall i :: 0 <= i < |items| ==> Numbers.IntOr0(items[i].price) >= 0
    ensures SumPrices(items) >= 0
  {
    if items != [] {
      var init := items[..|items| - 1];
      assert forall i :: 0 <= i < |init| ==> init[i] == items[i];
      SumPricesNonNegative(init);
    }
  }

  /** `calculateTotal`: the item prices plus the shipping fee; unparsable values count as 0. */
  function Total(items: seq<Item>, shippingFee: string): int {
    SumPrices(items) + Numbers.IntOr0(shippingFee)
  }

  lemma {:induction false} SumPricesAppend(a: seq<Item>, b: seq<Item>)
    ensures SumPrices(a + b) == SumPrices(a) + SumPrices(b)
  {
    if b == [] {
      assert a + b == a;
    } else {
      assert (a + b)[..|a + b| - 1] == a + b[..|b| - 1];
      SumPricesAppend(a, b[..|b| - 1]);
    }
  }

  /** Lists with the same prices position by position have the same sum. */
  lemma {:induction false} SamePricesSameSum(a: seq<Item>, b: seq<Item>)
    requires |a| == |b|
    requires forall i :: 0 <= i < |a| ==> a[i].price == b[i].price
    ensures SumPrices(a) == SumPrices(b)
  {
    if a != [] {
      SamePricesSameSum(a[..|a| - 1], b[..|b| - 1]);
    }
  }

  /** A blank item adds nothing to the total. */
  lemma TotalAfterAdd(items: seq<Item>, shippingFee: string, id: nat)
    ensures Total(items + [DefaultItem(id)], shippingFee) == Total(items, shippingFee)
  {
    SumPricesAppend(items, [DefaultItem(id)]);
    Numbers.EmptyAndZeroCountAsZero();
  }

  /** Dropping position k takes exactly that item's price out of the sum. */
  lemma SumPricesWithout(items: seq<Item>, k: nat)
    requires k < |items|
    ensures SumPrices(items[..k] + items[k + 1..]) == SumPrices(items) - Numbers.IntOr0(items[k].price)
  {
    var pre, x, post := items[..k], items[k], items[k + 1..];
    assert items[..k + 1] == pre + [x];
    assert items == items[..k + 1] + post;
    calc {
      SumPrices(items);
      { SumPricesAppend(pre + [x], post); }
      SumPrices(pre + [x]) + SumPrices(post);
      { SumPricesAppend(pre, [x]); SumPricesSingle(x); }
      SumPrices(pre) + Numbers.IntOr0(x.price) + SumPrices(post);
      { SumPricesAppend(pre, post); }
      SumPrices(pre + post) + Numbers.IntOr0(x.price);
    }
  }

  lemma SumPricesSingle(x: Item)
    ensures SumPrices([x]) == Numbers.IntOr0(x.price)
  {
    assert [x][..0] == [];
  }

  /** Removing item k (ids unique) takes exactly its price out of the total. */
  lemma TotalAfterRemove(items: seq<Item>, shippingFee: string, k: nat)
    requires UniqueIds(items) && k < |items|
    ensures Total(RemoveById(items, items[k].id), shippingFee) == Total(items, shippingFee) - Numbers.IntOr0(items[k].price)
  {
    RemoveUnique(items, k);
    SumPricesWithout(items, k);
  }

  /** Editing any field but the price leaves the total as it was. */
  lemma TotalAfterNonPriceEdit(items: seq<Item>, shippingFee: string, id: nat, f: Field, v: string)
    requires f != Price
    ensures Total(ChangeItems(items, id, f, v), shippingFee) == Total(items, shippingFee)
  {
    var r := ChangeItems(items, id, f, v);
    forall i | 0 <= i < |items| ensures r[i].price == items[i].price {
      assert Get(r[i], Price) == Get(items[i], Price);
    }
    SamePricesSameSum(r, items);
  }
}
