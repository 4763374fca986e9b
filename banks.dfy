/**
 * The fixed table of settlement accounts (`BANK_ACCOUNTS`) and lookup by id,
 * as `Array.prototype.find` does it: the first entry whose id matches.
 */
module Banks {
  import opened Wrappers

  /** One account; `holder` is the table's `label` field, renamed because `label` is a reserved word in Dafny. */
  datatype BankAccount = BankAccount(id: string, holder: string, bankName: string, bankCode: string, accountNumber: string)

  /** The table, literally as written (entries D and E included). */
  const BankAccounts: seq<BankAccount> := [
    BankAccount("A", "Chen", "中國信託", "822", "808540401057"),
    BankAccount("B", "少鈞", "國泰世華", "013", "699513716269"),
    BankAccount("C", "鈞媽", "中國信託", "822", "0000107531864731"),
    BankAccount("D", "傑", "新光銀行", "103", "0338501170734"),
    BankAccount("E", "郁幃", "玉山銀行", "808", "0968979255"),
    BankAccount("F", "賣貨便", "賣貨便", "", "")
  ]

  /** First entry of `table` with the given id. */
  function FindFirst(table: seq<BankAccount>, id: string): (r: Option<BankAccount>)
    ensures r.None? <==> forall k :: 0 <= k < |table| ==> table[k].id != id
    ensures r.Some? ==> exists k :: 0 <= k < |table| && table[k] == r.value && r.value.id == id &&
                                    forall j :: 0 <= j < k ==> table[j].id != id
  {
    if table == [] then None
    else if table[0].id == id then Some(table[0])
    else
      var r := FindFirst(table[1..], id);
      assert r.Some? ==> exists k :: 0 <= k < |table| && table[k] == r.value && r.value.id == id &&
                                     forall j :: 0 <= j < k ==> table[j].id != id by {
        if r.Some? {
          var k :| 0 <= k < |table[1..]| && table[1..][k] == r.value && r.value.id == id &&
                   forall j :: 0 <= j < k ==> table[1..][j].id != id;
          assert table[k + 1] == r.value;
          assert forall j :: 0 <= j < k + 1 ==> table[j].id != id by {
            forall j | 0 <= j < k + 1 ensures table[j].id != id {
              if j > 0 { assert table[j] == table[1..][j - 1]; }
            }
          }
        }
      }
      r
  }

  /** The table entry with this id, looked up the way the order form finds the selected bank. */
  function Lookup(id: string): Option<BankAccount> {
    FindFirst(BankAccounts, id)
  }

  /** The ids the bank selector offers: exactly the table's ids. */
  predicate Offered(id: string) {
    exists k :: 0 <= k < |BankAccounts| && BankAccounts[k].id == id
  }

  lemma IdsUnique()
    ensures forall i, j :: 0 <= i < j < |BankAccounts| ==> BankAccounts[i].id != BankAccounts[j].id
  {
  }

  /** Because the ids are unique, looking up an entry's id finds that very entry. */
  lemma LookupEntry(k: nat)
    requires k < |BankAccounts|
    ensures Lookup(BankAccounts[k].id) == Some(BankAccounts[k])
  {
    IdsUnique();
    var r := Lookup(BankAccounts[k].id);
    var k' :| 0 <= k' < |BankAccounts| && BankAccounts[k'] == r.value && r.value.id == BankAccounts[k].id &&
              forall j :: 0 <= j < k' ==> BankAccounts[j].id != BankAccounts[k].id;
    assert k' == k;
  }

  /** Every id the selector offers resolves to the entry carrying it. */
  lemma OfferedResolves(id: string)
    requires Offered(id)
    ensures Lookup(id).Some? && Lookup(id).value.id == id && Lookup(id).value in BankAccounts
  {
    var k :| 0 <= k < |BankAccounts| && BankAccounts[k].id == id;
    LookupEntry(k);
  }

  /** The first entry is A: the order draft's initial selection. */
  lemma FirstEntryIsA()
    ensures BankAccounts[0].id == "A" && Offered(BankAccounts[0].id)
    ensures Lookup("A") == Some(BankAccounts[0])
  {
    LookupEntry(0);
  }

  /** Entries D and E differ in bank code and account number as written. */
  lemma DAndEDiffer()
    ensures Lookup("D").Some? && Lookup("E").Some?
    ensures Lookup("D").value.bankCode == "103" && Lookup("E").value.bankCode == "808"
    ensures Lookup("D").value.accountNumber != Lookup("E").value.accountNumber
  {
    LookupEntry(3);
    LookupEntry(4);
  }
}
