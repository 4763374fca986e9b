/**
 * `generateOrderText`: the settlement message sent to a customer, with its
 * item lines, the fixed shipping notice, the calculation line
 * `p1+p2+...+fee=total`, the selected bank's block and the fixed closing
 * lines, trimmed as `String.prototype.trim` does. Also `formatProductName`,
 * whose result the message does not use.
 */
module Settlement {
  import opened Wrappers
  import Numbers
  import Banks
  import opened OrderDraft

  /** The code points `String.prototype.trim` removes. */
  predicate IsSpace(c: char) {
    c == ' ' || c == '\t' || c == '\n' || c == '\r' || c == '\U{000B}' || c == '\U{000C}' ||
    c == '\U{00A0}' || c == '\U{1680}' || ('\U{2000}' <= c <= '\U{200A}') ||
    c == '\U{2028}' || c == '\U{2029}' || c == '\U{202F}' || c == '\U{205F}' ||
    c == '\U{3000}' || c == '\U{FEFF}'
  }

  predicate AllSpace(s: string) {
    forall i :: 0 <= i < |s| ==> IsSpace(s[i])
  }

  function TrimStart(s: string): string {
    if s != [] && IsSpace(s[0]) then TrimStart(s[1..]) else s
  }

  function TrimEnd(s: string): string {
    if s != [] && IsSpace(s[|s| - 1]) then TrimEnd(s[..|s| - 1]) else s
  }

  function Trim(s: string): string {
    TrimEnd(TrimStart(s))
  }

  /** `s` occurs in `t` as a contiguous block. */
  ghost predicate Contains(t: string, s: string) {
    exists i, j :: 0 <= i <= j <= |t| && t[i..j] == s
  }

  /** The parts in order with `sep` between neighbours, as JavaScript's `Array.prototype.join` does. */
  function Join(parts: seq<string>, sep: string): string {
    if parts == [] then ""
    else if |parts| == 1 then parts[0]
    else parts[0] + sep + Join(parts[1..], sep)
  }

  /** The price as the calculation line shows it: an empty price is written as 0. */
  function PriceShown(item: Item): string {
    if item.price == "" then "0" else item.price
  }

  /** Writing an empty price as 0 never leaves a term blank and does not change what it adds. */
  lemma PriceShownCountsSame(item: Item)
    ensures PriceShown(item) != ""
    ensures Numbers.IntOr0(PriceShown(item)) == Numbers.IntOr0(item.price)
  {
    Numbers.EmptyAndZeroCountAsZero();
  }

  function PriceParts(items: seq<Item>): seq<string> {
    seq(|items|, i requires 0 <= i < |items| => PriceShown(items[i]))
  }

  /** The calculation line: the shown prices joined by `+`, then `+`, the fee as typed, `=` and the total. */
  function CalcLine(items: seq<Item>, shippingFee: string): string {
    Join(PriceParts(items), "+") + "+" + shippingFee + "=" + Numbers.IntToString(Total(items, shippingFee))
  }

  /** One item line: `#`, the product, ` * `, the raw quantity and unit, ` = $` and the price. */
  function ItemLine(item: Item): string {
    "#" + item.product + " * " + item.quantity + item.unit + " = $" + item.price
  }

  /** An item line starts with `#` and the product and ends with the price as typed. */
  lemma ItemLineEnds(item: Item)
    ensures |ItemLine(item)| > |item.product| && ItemLine(item)[..|item.product| + 1] == "#" + item.product
    ensures |ItemLine(item)| > |item.price| && ItemLine(item)[|ItemLine(item)| - |item.price|..] == item.price
  {
  }

  function ItemLines(items: seq<Item>): string {
    Join(seq(|items|, i requires 0 <= i < |items| => ItemLine(items[i])), "\n")
  }

  /** The fixed shipping notice that follows the item lines. */
  const Notice := "711寄送60（不包寄送風險）\n黑貓寄送200（全程開箱錄影，包寄送風險）\n\n"

  /** The fixed instructions that close the message. */
  const Closing := "\n\n匯款後請留下匯款截圖\n與\n相對應的寄送資料\n感謝你😊"

  /** Everything from the shipping notice to the thanks, as the template has it. */
  function Body(calcLine: string, bank: Banks.BankAccount): string {
    Notice + calcLine + "\n\n" + BankBlock(bank) + Closing
  }

  /** `銀行代碼(<code>)` */
  function CodeLine(bank: Banks.BankAccount): string {
    "銀行代碼(" + bank.bankCode + ")"
  }

  /** The bank's name, its code line and the account number, one per line. */
  function BankBlock(bank: Banks.BankAccount): string {
    bank.bankName + "\n" + CodeLine(bank) + "\n" + bank.accountNumber
  }

  /** `generateOrderText` for the given items, shipping fee and selected bank. */
  function OrderText(items: seq<Item>, shippingFee: string, bank: Banks.BankAccount): string {
    Trim("\n" + ItemLines(items) + "\n\n" + Body(CalcLine(items, shippingFee), bank) + "\n")
  }

  /** `formatProductName`: the product, followed by quantity and unit when both are given. */
  function FormatProductName(item: Item): (r: string)
    ensures |r| >= |item.product| && r[..|item.product|] == item.product
    ensures r == item.product <==> item.quantity == "" || item.unit == ""
    ensures r != item.product ==> r[|item.product|..] == item.quantity + item.unit
  {
    var name := item.product;
    if item.quantity != "" && item.unit != "" then name + item.quantity + item.unit else name
  }

  /** The previewing guard: every item names a product. */
  predicate CanPreview(items: seq<Item>) {
    forall i :: 0 <= i < |items| ==> items[i].product != ""
  }

  lemma {:induction false} TrimStartFrame(p: string, m: string)
    requires AllSpace(p) && m != [] && !IsSpace(m[0])
    ensures TrimStart(p + m) == m
  {
    if p != [] {
      assert (p + m)[1..] == p[1..] + m;
      TrimStartFrame(p[1..], m);
    }
  }

  lemma {:induction false} TrimEndFrame(m: string, q: string)
    requires AllSpace(q) && m != [] && !IsSpace(m[|m| - 1])
    ensures TrimEnd(m + q) == m
  {
    if q != [] {
      assert (m + q)[..|m + q| - 1] == m + q[..|q| - 1];
      TrimEndFrame(m, q[..|q| - 1]);
    }
  }

  /** Trimming removes exactly a whitespace frame around a text that starts and ends with non-whitespace. */
  lemma TrimFrame(p: string, m: string, q: string)
    requires AllSpace(p) && AllSpace(q)
    requires m != [] && !IsSpace(m[0]) && !IsSpace(m[|m| - 1])
    ensures Trim(p + m + q) == m
  {
    assert p + m + q == p + (m + q);
    TrimStartFrame(p, m + q);
    TrimEndFrame(m, q);
  }

  lemma {:induction false} JoinStartsWithFirst(parts: seq<string>, sep: string)
    requires parts != []
    ensures |Join(parts, sep)| >= |parts[0]| && Join(parts, sep)[..|parts[0]|] == parts[0]
  {
  }

  /** Each part of a join occurs in it. */
  lemma {:induction false} JoinContainsParts(parts: seq<string>, sep: string, k: nat)
    requires k < |parts|
    ensures Contains(Join(parts, sep), parts[k])
  {
    var t := Join(parts, sep);
    if k == 0 {
      JoinStartsWithFirst(parts, sep);
      assert t[0..|parts[0]|] == parts[0];
    } else {
      JoinContainsParts(parts[1..], sep, k - 1);
      var rest := Join(parts[1..], sep);
      var i, j :| 0 <= i <= j <= |rest| && rest[i..j] == parts[1..][k - 1];
      var off := |parts[0] + sep|;
      assert t == parts[0] + sep + rest;
      assert t[off + i..off + j] == rest[i..j];
    }
  }

  lemma ContainsSelf(s: string)
    ensures Contains(s, s)
  {
    assert s[0..|s|] == s;
  }

  lemma ContainsInConcat(a: string, b: string, s: string)
    ensures Contains(a, s) ==> Contains(a + b, s)
    ensures Contains(b, s) ==> Contains(a + b, s)
  {
    if Contains(a, s) {
      var i, j :| 0 <= i <= j <= |a| && a[i..j] == s;
      assert (a + b)[i..j] == a[i..j];
    }
    if Contains(b, s) {
      var i, j :| 0 <= i <= j <= |b| && b[i..j] == s;
      assert (a + b)[|a| + i..|a| + j] == b[i..j];
    }
  }

  lemma ContainsTrans(t: string, u: string, s: string)
    requires Contains(t, u) && Contains(u, s)
    ensures Contains(t, s)
  {
    var i, j :| 0 <= i <= j <= |t| && t[i..j] == u;
    var i', j' :| 0 <= i' <= j' <= |u| && u[i'..j'] == s;
    assert |u| == j - i;
    assert t[i + i'..i + j'] == s by {
      forall x | 0 <= x < j' - i' ensures t[i + i'..i + j'][x] == s[x] {
        assert s[x] == u[i' + x] == t[i + i' + x];
      }
    }
  }

  lemma BodyBoundaries(calcLine: string, bank: Banks.BankAccount)
    ensures var b := Body(calcLine, bank); b != [] && !IsSpace(b[0]) && !IsSpace(b[|b| - 1])
  {
    var b := Body(calcLine, bank);
    assert b[0] == Notice[0] == '7';
    assert b[|b| - 1] == Closing[|Closing| - 1] == '😊';
  }

  /** The template around the item lines and body, once trimmed. */
  lemma TrimTemplate(lines: string, b: string)
    requires b != [] && !IsSpace(b[0]) && !IsSpace(b[|b| - 1])
    requires lines == [] || !IsSpace(lines[0])
    ensures Trim("\n" + lines + "\n\n" + b + "\n") == (if lines == [] then "" else lines + "\n\n") + b
  {
    if lines == [] {
      assert "\n" + lines + "\n\n" + b + "\n" == "\n\n\n" + b + "\n";
      TrimFrame("\n\n\n", b, "\n");
    } else {
      var m := lines + "\n\n" + b;
      assert "\n" + lines + "\n\n" + b + "\n" == "\n" + m + "\n";
      TrimFrame("\n", m, "\n");
    }
  }

  /**
   * The generated text is the item lines (one per item), a blank line and the
   * fixed body; with no items, the body alone.
   */
  lemma OrderTextShape(items: seq<Item>, shippingFee: string, bank: Banks.BankAccount)
    ensures OrderText(items, shippingFee, bank) ==
      (if items == [] then "" else ItemLines(items) + "\n\n") + Body(CalcLine(items, shippingFee), bank)
  {
    BodyBoundaries(CalcLine(items, shippingFee), bank);
    if items != [] {
      var lines := seq(|items|, i requires 0 <= i < |items| => ItemLine(items[i]));
      JoinStartsWithFirst(lines, "\n");
      assert ItemLines(items)[0] == '#';
    }
    TrimTemplate(ItemLines(items), Body(CalcLine(items, shippingFee), bank));
  }

  /** With at least one item, the text starts with the first item's line. */
  lemma OrderTextStartsWithFirstItem(items: seq<Item>, shippingFee: string, bank: Banks.BankAccount)
    requires items != []
    ensures var t := OrderText(items, shippingFee, bank);
      |t| >= |ItemLine(items[0])| && t[..|ItemLine(items[0])|] == ItemLine(items[0])
  {
    OrderTextShape(items, shippingFee, bank);
    var lines := seq(|items|, i requires 0 <= i < |items| => ItemLine(items[i]));
    JoinStartsWithFirst(lines, "\n");
  }

  /** Every item's line, the calculation line and the bank block appear in the text. */
  lemma OrderTextMentions(items: seq<Item>, shippingFee: string, bank: Banks.BankAccount)
    ensures Contains(OrderText(items, shippingFee, bank), CalcLine(items, shippingFee))
    ensures Contains(OrderText(items, shippingFee, bank), BankBlock(bank))
    ensures forall k :: 0 <= k < |items| ==> Contains(OrderText(items, shippingFee, bank), ItemLine(items[k]))
  {
    OrderTextShape(items, shippingFee, bank);
    var t := OrderText(items, shippingFee, bank);
    var c := CalcLine(items, shippingFee);
    var blk := BankBlock(bank);
    var body := Body(c, bank);
    var head := if items == [] then "" else ItemLines(items) + "\n\n";
    ContainsInConcat(head, body, body);
    ContainsSelf(body);
    ContainsSelf(c);
    ContainsInConcat(Notice, c, c);
    ContainsInConcat(Notice + c, "\n\n", c);
    ContainsInConcat(Notice + c + "\n\n", blk, c);
    ContainsInConcat(Notice + c + "\n\n" + blk, Closing, c);
    ContainsTrans(t, body, c);
    ContainsSelf(blk);
    ContainsInConcat(Notice + c + "\n\n", blk, blk);
    ContainsInConcat(Notice + c + "\n\n" + blk, Closing, blk);
    ContainsTrans(t, body, blk);
    forall k | 0 <= k < |items| ensures Contains(t, ItemLine(items[k])) {
      var lines := seq(|items|, i requires 0 <= i < |items| => ItemLine(items[i]));
      JoinContainsParts(lines, "\n", k);
      ContainsInConcat(ItemLines(items), "\n\n", lines[k]);
      ContainsInConcat(head, body, lines[k]);
    }
  }

  /** The bank's name, code line and account number each appear in the text. */
  lemma OrderTextNamesBank(items: seq<Item>, shippingFee: string, bank: Banks.BankAccount)
    ensures Contains(OrderText(items, shippingFee, bank), bank.bankName)
    ensures Contains(OrderText(items, shippingFee, bank), CodeLine(bank))
    ensures Contains(OrderText(items, shippingFee, bank), bank.accountNumber)
  {
    OrderTextMentions(items, shippingFee, bank);
    var t := OrderText(items, shippingFee, bank);
    var blk := BankBlock(bank);
    var name, code, acct := bank.bankName, CodeLine(bank), bank.accountNumber;
    ContainsSelf(name);
    ContainsSelf(code);
    ContainsSelf(acct);
    ContainsInConcat(name, "\n", name);
    ContainsInConcat(name + "\n", code, name);
    ContainsInConcat(name + "\n", code, code);
    ContainsInConcat(name + "\n" + code, "\n", name);
    ContainsInConcat(name + "\n" + code, "\n", code);
    ContainsInConcat(name + "\n" + code + "\n", acct, name);
    ContainsInConcat(name + "\n" + code + "\n", acct, code);
    ContainsInConcat(name + "\n" + code + "\n", acct, acct);
    ContainsTrans(t, blk, name);
    ContainsTrans(t, blk, code);
    ContainsTrans(t, blk, acct);
  }

  function SumOfParts(parts: seq<string>): int {
    if parts == [] then 0 else SumOfParts(parts[..|parts| - 1]) + Numbers.IntOr0(parts[|parts| - 1])
  }

  /**
   * The calculation line adds up: the terms written before `=` (empty prices
   * written as 0) and the shipping fee sum to the total written after it, and
   * that total reads back as the total.
   */
  lemma {:induction false} CalcLineAddsUp(items: seq<Item>, shippingFee: string)
    ensures SumOfParts(PriceParts(items)) + Numbers.IntOr0(shippingFee) == Total(items, shippingFee)
    ensures Numbers.ParseInt(Numbers.IntToString(Total(items, shippingFee))) == Some(Total(items, shippingFee))
  {
    Numbers.ParseIntOfIntToString(Total(items, shippingFee));
    if items != [] {
      var init := items[..|items| - 1];
      var last := items[|items| - 1];
      CalcLineAddsUp(init, shippingFee);
      assert PriceParts(items)[..|items| - 1] == PriceParts(init);
      assert PriceParts(items)[|items| - 1] == PriceShown(last);
      PriceShownCountsSame(last);
      assert SumPrices(items) == SumPrices(init) + Numbers.IntOr0(last.price);
    }
  }

  lemma SampleValues()
    ensures Numbers.IntOr0("500") == 500 && Numbers.IntOr0("60") == 60
    ensures Numbers.IntToString(560) == "560"
  {
    assert Numbers.IntToString(500) == "500";
    Numbers.ParseIntOfIntToString(500);
    assert Numbers.IntToString(60) == "60";
    Numbers.ParseIntOfIntToString(60);
  }

  /** One item of 500 with a fee of 60: the calculation line is `500+60=560`. */
  lemma SingleItemCalcLine()
    ensures CalcLine([Item(0, "蟻后", Sizes[0], "500", "1", "隻")], "60") == "500+60=560"
  {
    var items := [Item(0, "蟻后", Sizes[0], "500", "1", "隻")];
    SampleValues();
    SumPricesSingle(items[0]);
    assert Total(items, "60") == 560;
    assert Join(PriceParts(items), "+") == "500";
  }

  /** Paid to account A, the message carries bank code 822 and the full account number. */
  lemma AccountAInText(items: seq<Item>, shippingFee: string)
    ensures Contains(OrderText(items, shippingFee, Banks.BankAccounts[0]), "822")
    ensures Contains(OrderText(items, shippingFee, Banks.BankAccounts[0]), "808540401057")
  {
    var bank := Banks.BankAccounts[0];
    OrderTextNamesBank(items, shippingFee, bank);
    assert bank.bankCode == "822" && bank.accountNumber == "808540401057";
    ContainsSelf(bank.bankCode);
    ContainsInConcat("銀行代碼(", bank.bankCode, bank.bankCode);
    ContainsInConcat("銀行代碼(" + bank.bankCode, ")", bank.bankCode);
    ContainsTrans(OrderText(items, shippingFee, bank), CodeLine(bank), bank.bankCode);
  }
}
