/**
 * The order form's state and the handlers that change it: the item list
 * operations, the plain field inputs, `handleImport`, `handleReview` and
 * `handleConfirm`. Ids come from a counter instead of the clock.
 */
module Order {
  import opened Wrappers
  import opened OrderDraft
  import Banks
  import Api
  import Settlement
  import Backup
  import Submission

  class OrderForm {
    var customerId: string
    var orderDate: string
    var items: seq<Item>
    var selectedBankId: string
    var shippingFee: string
    var remittanceAccount: string
    var orderNumber: string
    var timeItem: string
    var submitting: bool
    var previewOpen: bool
    var generatedText: string
    var backupJson: Option<Backup.Snapshot>
    /** The next fresh item id. */
    var nextId: nat

    /** The draft the form currently holds. */
    function State(): Draft
      reads this
    {
      Draft(customerId, orderDate, items, selectedBankId, shippingFee, remittanceAccount, orderNumber, timeItem)
    }

    /** Item ids are distinct and already handed out; the selected bank is one the selector offers. */
    ghost predicate Valid()
      reads this`items, this`nextId, this`selectedBankId
    {
      && UniqueIds(items)
      && (forall i :: 0 <= i < |items| ==> items[i].id < nextId)
      && Banks.Offered(selectedBankId)
    }

    /** Mounting the form; `today` stands for the month/day label taken from the clock. */
    constructor(today: string)
      ensures Valid()
      ensures State() == InitialDraft(today, 0) && nextId == 1
      ensures !submitting && !previewOpen && generatedText == "" && backupJson == None
    {
      customerId := "";
      orderDate := today;
      items := [DefaultItem(0)];
      selectedBankId := Banks.BankAccounts[0].id;
      shippingFee := "0";
      remittanceAccount := "";
      orderNumber := "";
      timeItem := "";
      submitting := false;
      previewOpen := false;
      generatedText := "";
      backupJson := None;
      nextId := 1;
      Banks.FirstEntryIsA();
    }

    /** `addItem`: one blank item at the end; every existing item stays where it was. */
    method AddItem()
      requires Valid()
      modifies this`items, this`nextId
      ensures Valid()
      ensures items == old(items) + [DefaultItem(old(nextId))] && nextId == old(nextId) + 1
      ensures Total(items, shippingFee) == Total(old(items), shippingFee)
    {
      TotalAfterAdd(items, shippingFee, nextId);
      items := items + [DefaultItem(nextId)];
      nextId := nextId + 1;
    }

    /** `removeItem`: a no-op on a one-item list, otherwise the items with that id go. */
    method RemoveItem(id: nat)
      requires Valid()
      modifies this`items
      ensures Valid()
      ensures |old(items)| <= 1 ==> items == old(items)
      ensures |old(items)| > 1 ==> items == RemoveById(old(items), id)
      ensures |old(items)| > 1 && HasId(old(items), id) ==> |items| == |old(items)| - 1
      ensures |old(items)| >= 1 ==> |items| >= 1
    {
      if |items| > 1 {
        RemoveDropsAtMostOne(items, id);
        items := RemoveById(items, id);
      }
    }

    /** `handleItemChange`: the named field of the items with that id takes the value. */
    method ChangeItem(id: nat, f: Field, v: string)
      requires Valid()
      modifies this`items
      ensures Valid()
      ensures items == ChangeItems(old(items), id, f, v)
      ensures !HasId(old(items), id) ==> items == old(items)
    {
      if !HasId(items, id) {
        ChangeUnknownId(items, id, f, v);
      }
      items := ChangeItems(items, id, f, v);
      assert forall i :: 0 <= i < |items| ==> items[i].id == old(items)[i].id;
    }

    method SetCustomerId(v: string)
      requires Valid()
      modifies this`customerId
      ensures Valid()
      ensures State() == old(State()).(customerId := v)
    {
      customerId := v;
    }

    method SetTimeItem(v: string)
      requires Valid()
      modifies this`timeItem
      ensures Valid()
      ensures State() == old(State()).(timeItem := v)
    {
      timeItem := v;
    }

    method SetShippingFee(v: string)
      requires Valid()
      modifies this`shippingFee
      ensures Valid()
      ensures State() == old(State()).(shippingFee := v)
    {
      shippingFee := v;
    }

    /** The bank selector: only ids of the table can be chosen. */
    method SelectBank(id: string)
      requires Valid() && Banks.Offered(id)
      modifies this`selectedBankId
      ensures Valid() && selectedBankId == id
    {
      selectedBankId := id;
    }

    method SetRemittanceAccount(v: string)
      requires Valid()
      modifies this`remittanceAccount
      ensures Valid()
      ensures State() == old(State()).(remittanceAccount := v)
    {
      remittanceAccount := v;
    }

    method SetOrderDate(v: string)
      requires Valid()
      modifies this`orderDate
      ensures Valid()
      ensures State() == old(State()).(orderDate := v)
    {
      orderDate := v;
    }

    method SetOrderNumber(v: string)
      requires Valid()
      modifies this`orderNumber
      ensures Valid()
      ensures State() == old(State()).(orderNumber := v)
    {
      orderNumber := v;
    }

    /**
     * `handleImport`, given the result of parsing the pasted text. A failed
     * parse changes nothing; otherwise the snapshot is merged in and imported
     * items get fresh ids.
     */
    method HandleImport(parsed: Option<Backup.Snapshot>) returns (ok: bool)
      requires Valid()
      modifies this`customerId, this`timeItem, this`shippingFee, this`items, this`nextId
      ensures Valid()
      ensures ok == Backup.ImportSucceeds(parsed)
      ensures parsed.None? ==> State() == old(State())
      ensures parsed.Some? ==> State() == Backup.Merge(old(State()), parsed.value, old(nextId))
    {
      ok := false;
      if parsed.Some? {
        var s := parsed.value;
        customerId := Backup.Overlay(customerId, s.customerId);
        timeItem := Backup.Overlay(timeItem, s.timeItem);
        if s.shippingFee.Some? {
          shippingFee := s.shippingFee.value;
        }
        if s.items.ItemList? {
          Backup.FreshItemsIds(s.items.list, nextId);
          items := Backup.FreshItems(s.items.list, nextId);
          nextId := nextId + |s.items.list|;
        }
        ok := !s.items.NotAList?;
      }
    }

    /** `handleReview`: refused while an item has no product; otherwise the text and backup are shown. */
    method Review() returns (ok: bool)
      requires Valid()
      modifies this`generatedText, this`backupJson, this`previewOpen
      ensures Valid()
      ensures ok == Settlement.CanPreview(items)
      ensures !ok ==> generatedText == old(generatedText) && backupJson == old(backupJson) && previewOpen == old(previewOpen)
      ensures ok ==>
        Banks.Lookup(selectedBankId).Some? && previewOpen &&
        generatedText == Settlement.OrderText(items, shippingFee, Banks.Lookup(selectedBankId).value) &&
        backupJson == Some(Backup.Export(State()))
    {
      ok := Settlement.CanPreview(items);
      if ok {
        ShowPreview();
      }
    }

    /** The accepted half of `handleReview`: the message for the selected bank, the backup, and the open preview. */
    method ShowPreview()
      requires Valid()
      modifies this`generatedText, this`backupJson, this`previewOpen
      ensures Banks.Lookup(selectedBankId).Some? && previewOpen
      ensures generatedText == Settlement.OrderText(items, shippingFee, Banks.Lookup(selectedBankId).value)
      ensures backupJson == Some(Backup.Export(State()))
    {
      Banks.OfferedResolves(selectedBankId);
      var bank := Banks.Lookup(selectedBankId).value;
      generatedText := Settlement.OrderText(items, shippingFee, bank);
      backupJson := Some(Backup.Export(State()));
      previewOpen := true;
    }

    /**
     * `handleConfirm`. A refused draft sends nothing and changes nothing; a
     * sound one is sent once and the draft is reset. The transport's own
     * outcome does not matter: the client reports success either way.
     */
    method Confirm(apiKey: string, backend: Api.Backend, transportOk: bool) returns (r: Submission.ConfirmResult)
      requires Valid() && !submitting
      modifies this`items, this`customerId, this`shippingFee, this`remittanceAccount, this`timeItem,
               this`nextId, this`submitting, this`previewOpen, backend`orders
      ensures Valid() && !submitting
      ensures r == Submission.Decide(apiKey, old(State())) && !r.Failed?
      ensures r.Refused? ==> State() == old(State()) && backend.orders == old(backend.orders) && previewOpen == old(previewOpen)
      ensures r.Submitted? ==>
        && backend.orders == old(backend.orders) + [Api.Request(r.payload, apiKey)]
        && State() == Submission.AfterConfirm(old(State()), old(nextId))
        && !previewOpen
    {
      ghost var before := State();
      Submission.OfferedBankNeverFails(apiKey, before);
      if apiKey == "" {
        return Submission.Refused(Submission.NoApiKey);
      }
      if customerId == "" {
        return Submission.Refused(Submission.NoCustomer);
      }
      if exists i :: 0 <= i < |items| && Submission.Incomplete(items[i]) {
        return Submission.Refused(Submission.IncompleteItem);
      }
      submitting := true;
      Banks.OfferedResolves(selectedBankId);
      var bank := Banks.Lookup(selectedBankId).value;
      var payload := Submission.BuildPayload(State(), bank);
      var status := backend.CreateOrder(payload, apiKey, transportOk);
      r := Submission.Submitted(payload);
      ResetAfterSuccess();
      submitting := false;
    }

    /** The reset that follows a successful confirmation. */
    method ResetAfterSuccess()
      requires Banks.Offered(selectedBankId)
      modifies this`items, this`customerId, this`shippingFee, this`remittanceAccount, this`timeItem,
               this`nextId, this`previewOpen
      ensures Valid() && !previewOpen
      ensures State() == Submission.AfterConfirm(old(State()), old(nextId)) && nextId == old(nextId) + 1
    {
      previewOpen := false;
      items := [DefaultItem(nextId)];
      nextId := nextId + 1;
      customerId := "";
      shippingFee := "0";
      remittanceAccount := "";
      timeItem := "";
    }
  }
}
