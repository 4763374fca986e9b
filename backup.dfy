/**
 * `generateBackupJson` and `handleImport`. The JSON text itself is not
 * modelled: a backup is the structured value the text stands for, and an
 * import receives the result of parsing the pasted text (None when the text
 * is not JSON or is `null`).
 */
module Backup {
  import opened Wrappers
  import opened OrderDraft

  /** An item as a backup carries it: no id. */
  datatype BackupItem = BackupItem(product: string, size: string, price: string, quantity: string, unit: string)

  /** What `data.items` holds: absent or falsy, an array, or some other truthy value. */
  datatype ItemsField = NoItems | ItemList(list: seq<BackupItem>) | NotAList

  /** A parsed backup; an absent key is None. */
  datatype Snapshot = Snapshot(customerId: Option<string>, timeItem: Option<string>, shippingFee: Option<string>, items: ItemsField)

  function Project(item: Item): BackupItem {
    BackupItem(item.product, item.size, item.price, item.quantity, item.unit)
  }

  function ProjectAll(items: seq<Item>): (r: seq<BackupItem>)
    ensures |r| == |items| && forall i :: 0 <= i < |items| ==> r[i] == Project(items[i])
  {
    seq(|items|, i requires 0 <= i < |items| => Project(items[i]))
  }

  /** `generateBackupJson`: customer id, time note, shipping fee and the items without their ids. */
  function Export(d: Draft): Snapshot {
    Snapshot(Some(d.customerId), Some(d.timeItem), Some(d.shippingFee), ItemList(ProjectAll(d.items)))
  }

  /** Imported items, each given the next id from `firstId` on. */
  function FreshItems(list: seq<BackupItem>, firstId: nat): (r: seq<Item>)
    ensures |r| == |list|
    ensures forall i :: 0 <= i < |list| ==> r[i].id == firstId + i && Project(r[i]) == list[i]
  {
    if list == [] then []
    else
      var b := list[0];
      [Item(firstId, b.product, b.size, b.price, b.quantity, b.unit)] + FreshItems(list[1..], firstId + 1)
  }

  /** `if (x) set(x)` for a string: only a present, non-empty value overwrites. */
  function Overlay(current: string, incoming: Option<string>): string {
    if incoming.Some? && incoming.value != "" then incoming.value else current
  }

  /**
   * The state `handleImport` leaves behind once parsing succeeded. When
   * `items` is a truthy non-array, `.map` throws after the other three setters
   * have run, so their updates stay while the items do not change.
   */
  function Merge(d: Draft, s: Snapshot, firstId: nat): (r: Draft)
    ensures r.orderDate == d.orderDate && r.selectedBankId == d.selectedBankId
    ensures r.remittanceAccount == d.remittanceAccount && r.orderNumber == d.orderNumber
    ensures !s.items.ItemList? ==> r.items == d.items
    ensures s.shippingFee.None? ==> r.shippingFee == d.shippingFee
    ensures s.customerId.None? || s.customerId == Some("") ==> r.customerId == d.customerId
    ensures s.timeItem.None? || s.timeItem == Some("") ==> r.timeItem == d.timeItem
  {
    d.(customerId := Overlay(d.customerId, s.customerId),
       timeItem := Overlay(d.timeItem, s.timeItem),
       shippingFee := if s.shippingFee.Some? then s.shippingFee.value else d.shippingFee,
       items := if s.items.ItemList? then FreshItems(s.items.list, firstId) else d.items)
  }

  /** Whether `handleImport` reports success for a parse result. */
  predicate ImportSucceeds(parsed: Option<Snapshot>) {
    parsed.Some? && !parsed.value.items.NotAList?
  }

  /** Imported ids are distinct and all lie in `[firstId, firstId + |list|)`. */
  lemma FreshItemsIds(list: seq<BackupItem>, firstId: nat)
    ensures UniqueIds(FreshItems(list, firstId))
    ensures forall i :: 0 <= i < |list| ==> firstId <= FreshItems(list, firstId)[i].id < firstId + |list|
  {
  }

  /**
   * Importing a draft's backup restores its customer id and time note (when
   * non-empty), its shipping fee, and its items field by field and in order;
   * only the item ids are new.
   */
  lemma RoundTrip(d: Draft, target: Draft, firstId: nat)
    ensures var r := Merge(target, Export(d), firstId);
      && (d.customerId != "" ==> r.customerId == d.customerId)
      && (d.timeItem != "" ==> r.timeItem == d.timeItem)
      && r.shippingFee == d.shippingFee
      && ProjectAll(r.items) == ProjectAll(d.items)
      && forall i :: 0 <= i < |r.items| ==> r.items[i].id == firstId + i
  {
    var r := Merge(target, Export(d), firstId);
    assert r.items == FreshItems(ProjectAll(d.items), firstId);
    assert ProjectAll(r.items) == ProjectAll(d.items);
  }

  /** Into a freshly mounted draft the round trip restores all four fields. */
  lemma RoundTripIntoInitial(d: Draft, today: string, id: nat, firstId: nat)
    ensures var r := Merge(InitialDraft(today, id), Export(d), firstId);
      r.customerId == d.customerId && r.timeItem == d.timeItem && r.shippingFee == d.shippingFee &&
      ProjectAll(r.items) == ProjectAll(d.items)
  {
    RoundTrip(d, InitialDraft(today, id), firstId);
  }

  /** An explicit empty item array empties the list. */
  lemma ImportEmptyList(d: Draft, s: Snapshot, firstId: nat)
    requires s.items == ItemList([])
    ensures Merge(d, s, firstId).items == []
  {
  }
}
