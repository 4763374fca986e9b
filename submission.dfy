/**
 * The decision part of `handleConfirm`: the guards in their order, the
 * payload handed to `createOrder` with its `receiveAccount` tag, and the
 * draft the form resets to afterwards.
 */
module Submission {
  import opened Wrappers
  import Banks
  import Api
  import opened OrderDraft

  /** Why a confirmation is refused before anything is sent. */
  datatype Refusal = NoApiKey | NoCustomer | IncompleteItem

  /**
   * Refused: a guard stopped it; Failed: the bank lookup found nothing and the
   * resulting error was caught; Submitted: `createOrder` is called with this payload.
   */
  datatype ConfirmResult = Refused(reason: Refusal) | Failed | Submitted(payload: Api.OrderPayload)

  /** `bank.accountNumber.slice(-5)`: the last five characters, or all of a shorter string. */
  function LastFive(s: string): (r: string)
    ensures |r| == if |s| < 5 then |s| else 5
    ensures s == s[..|s| - |r|] + r
  {
    if |s| <= 5 then s else s[|s| - 5..]
  }

  /** The receive tag: the account number's last five characters, a dash and the account's label. */
  function ReceiveAccount(bank: Banks.BankAccount): string {
    LastFive(bank.accountNumber) + "-" + bank.holder
  }

  /** The receive tag ends with `-` and the label, after the account number's last five characters (all of a shorter one). */
  lemma ReceiveAccountParts(bank: Banks.BankAccount)
    ensures var r, a := ReceiveAccount(bank), bank.accountNumber;
      |r| > |bank.holder| && r[|r| - |bank.holder| - 1..] == "-" + bank.holder &&
      var n := |r| - |bank.holder| - 1;
      n == (if |a| < 5 then |a| else 5) && r[..n] == a[|a| - n..]
  {
  }

  /** An item lacks a product or a price. */
  predicate Incomplete(item: Item) {
    item.product == "" || item.price == ""
  }

  function PayloadItem(item: Item): Api.OrderItemPayload {
    Api.OrderItemPayload(item.product, item.quantity, item.unit, item.size, item.price)
  }

  /** The order payload: draft fields as they are, items without ids, and the receive tag. */
  function BuildPayload(d: Draft, bank: Banks.BankAccount): (p: Api.OrderPayload)
    ensures |p.items| == |d.items|
    ensures forall i :: 0 <= i < |d.items| ==>
      p.items[i].name == d.items[i].product && p.items[i].quantity == d.items[i].quantity &&
      p.items[i].unit == d.items[i].unit && p.items[i].size == d.items[i].size && p.items[i].price == d.items[i].price
  {
    Api.OrderPayload(
      d.customerId, d.orderDate,
      seq(|d.items|, i requires 0 <= i < |d.items| => PayloadItem(d.items[i])),
      ReceiveAccount(bank), d.shippingFee, d.remittanceAccount, d.orderNumber, d.timeItem)
  }

  /** What `handleConfirm` does with a draft: the guards in order, then the lookup and the payload. */
  function Decide(apiKey: string, d: Draft): (r: ConfirmResult)
    ensures r == Refused(NoApiKey) <==> apiKey == ""
    ensures r == Refused(NoCustomer) <==> apiKey != "" && d.customerId == ""
    ensures r == Refused(IncompleteItem) <==>
      apiKey != "" && d.customerId != "" && exists i :: 0 <= i < |d.items| && Incomplete(d.items[i])
    ensures r.Submitted? <==>
      apiKey != "" && d.customerId != "" && (forall i :: 0 <= i < |d.items| ==> !Incomplete(d.items[i])) &&
      Banks.Lookup(d.selectedBankId).Some?
    ensures r.Submitted? ==>
      r.payload.customer == d.customerId && r.payload.orderDate == d.orderDate &&
      r.payload.receiveAccount == ReceiveAccount(Banks.Lookup(d.selectedBankId).value) &&
      r.payload == BuildPayload(d, Banks.Lookup(d.selectedBankId).value)
  {
    if apiKey == "" then Refused(NoApiKey)
    else if d.customerId == "" then Refused(NoCustomer)
    else if exists i :: 0 <= i < |d.items| && Incomplete(d.items[i]) then Refused(IncompleteItem)
    else match Banks.Lookup(d.selectedBankId)
      case None => Failed
      case Some(bank) => Submitted(BuildPayload(d, bank))
  }

  /** The draft after a successful confirmation; `id` is the fresh id of the new blank item. */
  function AfterConfirm(d: Draft, id: nat): (r: Draft)
    ensures r.orderDate == d.orderDate && r.orderNumber == d.orderNumber && r.selectedBankId == d.selectedBankId
    ensures |r.items| == 1 && r.items[0].id == id
  {
    d.(items := [DefaultItem(id)], customerId := "", shippingFee := "0", remittanceAccount := "", timeItem := "")
  }

  /** A bank the selector offers never makes a confirmation fail. */
  lemma OfferedBankNeverFails(apiKey: string, d: Draft)
    requires Banks.Offered(d.selectedBankId)
    ensures !Decide(apiKey, d).Failed?
  {
    Banks.OfferedResolves(d.selectedBankId);
  }

  /** Confirming again straight after a success is refused before anything is sent. */
  lemma ResetDraftIsRefused(apiKey: string, d: Draft, id: nat)
    ensures Decide(apiKey, AfterConfirm(d, id)).Refused?
  {
  }

  /** The receive tag of the first entry, A. */
  lemma ReceiveAccountOfA()
    ensures ReceiveAccount(Banks.BankAccounts[0]) == "01057-Chen"
  {
    var acct := Banks.BankAccounts[0].accountNumber;
    assert acct == "808540401057";
    assert LastFive(acct) == acct[7..] == "01057";
  }

  /** Entry F has no account number, so its receive tag is the label alone after `-`. */
  lemma ReceiveAccountOfF()
    ensures ReceiveAccount(Banks.BankAccounts[5]) == "-賣貨便"
  {
    var f := Banks.BankAccounts[5];
    assert f.accountNumber == "" && f.holder == "賣貨便";
    assert LastFive(f.accountNumber) == "";
  }
}
