/**
 * The posting deriver (`datev_creator/zugfert2ledger_import.py`): from a
 * ZUGFeRD / Factur-X invoice to the receivable ledgers of a DATEV ledger
 * import. The invoice is reduced to the strings the converter reads from
 * it; the account lookup is a function the caller passes in.
 */
module Zugferd {
  import opened Common
  import opened Dates
  import opened LedgerXml

  const LedgerXmlData: string := "Kopie nur zur Verbuchung berechtigt nicht zum Vorsteuerabzug"
  const SoftwareName: string := "BombelczykDatevCreator"

  // ---------------------------------------------------------------------------
  // The invoice as the converter sees it
  // ---------------------------------------------------------------------------

  /** A trade party: buyer or seller. */
  datatype Party = Party(
    id: Option<string>,            // `str(party.id)`, None when the party has no id
    name: string,                  // `str(party.name)`
    city: Option<string>,          // `str(address.city_name)` when there is an address
    countryId: Option<string>,     // `str(address.country_id)` when there is an address
    taxRegistrations: seq<string>) // `str(registration.id)` of each tax registration

  /**
   * A line item. Tax rates are in hundredths of a percent: the source reads
   * them as floats and formats them with two decimals.
   */
  datatype LineItem = LineItem(
    monetarySummation: Option<string>, // `str(settlement.monetary_summation.total_amount)` when present
    gross: Option<string>,             // `str(agreement.gross.amount)` when present
    net: Option<string>,               // `str(agreement.net.amount)` when present
    taxRate: Option<int>,              // `settlement.trade_tax.rate_applicable_percent` when present
    productName: Option<string>)       // `str(product.name)` when the product has a name

  datatype Invoice = Invoice(
    id: string,                        // `str(header.id)`, "" when absent
    issueDateTime: string,             // `str(header.issue_date_time)`, "" when absent
    currencyCode: string,              // `str(settlement.currency_code)`, "" when absent
    buyer: Party,
    seller: Party,
    paymentTermDues: seq<string>,      // `str(term.due)` of each payment term
    deliveryOccurrence: Option<string>,// `str(delivery.event.occurrence)` when there is an event
    buyerOrderId: Option<string>,      // `str(buyer_order.issuer_assigned_id)` when it holds data
    grandTotal: string,                // `str(monetary_summation.grand_total._amount)`
    items: seq<LineItem>)

  /** The injected account lookup: (customer number, invoice id) to an account number. */
  type Resolver = (Option<string>, string) -> Option<string>

  // ---------------------------------------------------------------------------
  // Tax rates and booking keys
  // ---------------------------------------------------------------------------

  /** `f"{rate:.2f}"` of a rate given in hundredths. */
  function FormatRate(h: int): (s: string)
    ensures |s| >= 4
  {
    if h < 0 then "-" + FormatMagnitude(-h) else FormatMagnitude(h)
  }

  function FormatMagnitude(h: nat): (s: string)
    ensures |s| >= 4
  {
    NatToString(h / 100) + "." + PadNat(h % 100, 2)
  }

  /** `repr(float)` of a rate given in hundredths: at least one decimal, no trailing zero after it. */
  function RateRepr(h: int): string
  {
    if h < 0 then "-" + MagnitudeRepr(-h) else MagnitudeRepr(h)
  }

  function MagnitudeRepr(h: nat): string
  {
    if h % 100 == 0 then NatToString(h / 100) + ".0"
    else if h % 10 == 0 then NatToString(h / 100) + "." + NatToString(h % 100 / 10)
    else NatToString(h / 100) + "." + PadNat(h % 100, 2)
  }

  /** `get_tax_rate`: the rate and its two-decimal text, or a ValueError for an item without one. */
  function GetTaxRate(item: LineItem): (r: Result<(int, string)>)
    ensures r.Ok? <==> item.taxRate.Some?
    ensures r.Ok? ==> r.value == (item.taxRate.value, FormatRate(item.taxRate.value))
    ensures r.Err? ==> r.error == ValueError("Item does not have a valid tax rate")
  {
    if item.taxRate.Some? then Ok((item.taxRate.value, FormatRate(item.taxRate.value)))
    else Err(ValueError("Item does not have a valid tax rate"))
  }

  /** The booking key of a tax rate: 19 % is "3", 0 % is "200", anything else (or no rate) a ValueError. */
  function BuCode(rate: Option<int>): (r: Result<string>)
    ensures r == Ok("3") <==> rate == Some(1900)
    ensures r == Ok("200") <==> rate == Some(0)
    ensures r.Err? <==> rate != Some(1900) && rate != Some(0)
    ensures r.Err? ==> r.error.ValueError?
  {
    if rate == Some(1900) then Ok("3")
    else if rate == Some(0) then Ok("200")
    else Err(ValueError("Unexpected tax rate: " + (if rate.Some? then RateRepr(rate.value) else "None")))
  }

  // ---------------------------------------------------------------------------
  // What every ledger of an invoice shares
  // ---------------------------------------------------------------------------

  /** `str(first registration).strip().removesuffix("(VA)").strip()`, when there is a registration. */
  function SellerTaxId(seller: Party): (r: Option<string>)
    ensures r.Some? <==> |seller.taxRegistrations| > 0
  {
    if |seller.taxRegistrations| > 0 then
      Some(StripSpace(RemoveSuffix(StripSpace(seller.taxRegistrations[0]), "(VA)")))
    else None
  }

  /**
   * The seller's tax id is its first registration stripped, with a
   * trailing "(VA)" and the whitespace before it removed: " t (VA) " gives
   * `t`, and a registration without the suffix comes back stripped.
   */
  lemma SellerTaxIdValue(seller: Party, t: string, l: string, r: string)
    requires |seller.taxRegistrations| > 0
    ensures seller.taxRegistrations[0] == l + t + " (VA)" + r && IsBlank(l) && IsBlank(r) && |t| > 0 && Trimmed(t)
      ==> SellerTaxId(seller) == Some(t)
    ensures !EndsWith(StripSpace(seller.taxRegistrations[0]), "(VA)")
      ==> SellerTaxId(seller) == Some(StripSpace(seller.taxRegistrations[0]))
  {
    var reg := seller.taxRegistrations[0];
    StripSpaceIdempotent(reg);
    if reg == l + t + " (VA)" + r && IsBlank(l) && IsBlank(r) && |t| > 0 && Trimmed(t) {
      var x := t + " (VA)";
      assert reg == l + x + r;
      StripSpaceOfPadded(l, x, r);
      assert x[|x| - 4..] == "(VA)";
      assert RemoveSuffix(x, "(VA)") == t + " ";
      assert t + " " == "" + t + " ";
      StripSpaceOfPadded("", t, " ");
    }
  }

  /** The buyer's first tax registration, unchanged. */
  function BuyerTaxId(buyer: Party): (r: Option<string>)
    ensures r.Some? <==> |buyer.taxRegistrations| > 0
    ensures r.Some? ==> r.value == buyer.taxRegistrations[0]
  {
    if |buyer.taxRegistrations| > 0 then Some(buyer.taxRegistrations[0]) else None
  }

  /**
   * The due date as written: the guard asks whether the list of payment
   * terms has an attribute `due`, which a list never has.
   */
  function DueDateAsWritten(inv: Invoice): Option<string>
  {
    if |inv.paymentTermDues| > 0 && ListHasAttribute("due") then DueDate(inv) else None
  }

  /** `hasattr(some_list, name)` for a field name of the invoice model: a list has none of them. */
  predicate ListHasAttribute(name: string)
  {
    false
  }

  /** The due date as evidently intended: the due date of the first payment term. */
  function DueDate(inv: Invoice): (r: Option<string>)
    ensures r.Some? <==> |inv.paymentTermDues| > 0
    ensures r.Some? ==> r.value == inv.paymentTermDues[0]
  {
    if |inv.paymentTermDues| > 0 then Some(inv.paymentTermDues[0]) else None
  }

  /** As written, no invoice ever yields a due date; an invoice with a payment term shows the difference. */
  lemma DueDateNeverRead(inv: Invoice)
    ensures DueDateAsWritten(inv) == None
    ensures |inv.paymentTermDues| > 0 ==> DueDate(inv) != DueDateAsWritten(inv)
  {
  }

  /** The values `retrieve_ledgers` gathers before it builds any ledger. */
  datatype Shared = Shared(
    buyerId: Option<string>,
    invoiceId: string,
    sellerTaxId: Option<string>,
    shipFromCountry: Option<string>,
    buyerTaxId: Option<string>,
    shipToCountry: Option<string>,
    dueDate: Option<string>,
    deliveryDate: Option<string>,
    orderId: Option<string>)

  /** The shared values, or the ValueError of an invoice without an id. */
  function SharedFields(inv: Invoice): (r: Result<Shared>)
    ensures r.Ok? <==> inv.id != ""
    ensures r.Err? ==> r.error == ValueError("Invoice needs to have an ID, but it does not.")
    ensures r.Ok? ==> r.value.invoiceId == inv.id && r.value.buyerId == inv.buyer.id
    ensures r.Ok? ==> r.value.sellerTaxId == SellerTaxId(inv.seller) && r.value.buyerTaxId == BuyerTaxId(inv.buyer)
    ensures r.Ok? ==> r.value.shipFromCountry == inv.seller.countryId && r.value.shipToCountry == inv.buyer.countryId
    ensures r.Ok? ==> r.value.dueDate == DueDate(inv) && r.value.deliveryDate == inv.deliveryOccurrence
    ensures r.Ok? ==> r.value.orderId == inv.buyerOrderId
  {
    if inv.id == "" then Err(ValueError("Invoice needs to have an ID, but it does not."))
    else Ok(Shared(inv.buyer.id, inv.id, SellerTaxId(inv.seller), inv.seller.countryId, BuyerTaxId(inv.buyer),
                   inv.buyer.countryId, DueDate(inv), inv.deliveryOccurrence, inv.buyerOrderId))
  }

  // ---------------------------------------------------------------------------
  // Building one ledger
  // ---------------------------------------------------------------------------

  /** Python truthiness of an optional text. */
  predicate Truthy(o: Option<string>)
  {
    o.Some? && o.value != ""
  }

  /** `create_ledgger`: a receivable ledger with every bank, discount and cost field left out. */
  function CreateLedger(issueDateTime: string, currencyCode: string, buyerName: string, buyerCity: Option<string>,
                        resolver: Resolver, amount: string, s: Shared, buCode: string, taxRate: Option<string>,
                        information: Option<string>, bookingText: Option<string>): (l: Ledger)
    ensures l.Receivable?
  {
    Receivable(
      Base1(
        base := Base(
          date := issueDateTime,
          amount := amount,
          discountAmount := None,
          accountNo := resolver(s.buyerId, s.invoiceId),
          buCode := Some(buCode),
          costAmount := None,
          costCategoryId := None,
          costCategoryId2 := None,
          tax := taxRate,
          information := if Truthy(information) then Some(Prefix(information.value, 120)) else None),
        currencyCode := currencyCode,
        invoiceId := s.invoiceId,
        bookingText := bookingText,
        typeOfReceivable := None,
        ownVatId := s.sellerTaxId,
        shipFromCountry := s.shipFromCountry,
        partyId := s.buyerId,
        paidAt := None,
        internalInvoiceId := None,
        vatId := s.buyerTaxId,
        shipToCountry := s.shipToCountry,
        exchangeRate := None,
        bankCode := None,
        bankAccount := None,
        bankCountry := None,
        iban := None,
        swiftCode := None,
        accountName := None,
        paymentConditionsId := None,
        paymentOrder := None,
        discountPercentage := None,
        discountPaymentDate := None,
        discountAmount2 := None,
        discountPercentage2 := None,
        discountPaymentDate2 := None,
        dueDate := s.dueDate,
        bpAccountNo := None,
        deliveryDate := s.deliveryDate,
        orderId := s.orderId),
      customerName := Some(Prefix(buyerName, 50)),
      customerCity := buyerCity)
  }

  /** No bank, discount or cost value is ever set on a derived ledger. */
  predicate NoBankOrDiscount(b: Base1)
  {
    && b.base.discountAmount.None? && b.base.costAmount.None?
    && b.base.costCategoryId.None? && b.base.costCategoryId2.None?
    && b.typeOfReceivable.None? && b.paidAt.None? && b.internalInvoiceId.None? && b.exchangeRate.None?
    && b.bankCode.None? && b.bankAccount.None? && b.bankCountry.None? && b.iban.None?
    && b.swiftCode.None? && b.accountName.None? && b.paymentConditionsId.None? && b.paymentOrder.None?
    && b.discountPercentage.None? && b.discountPaymentDate.None? && b.discountAmount2.None?
    && b.discountPercentage2.None? && b.discountPaymentDate2.None? && b.bpAccountNo.None?
  }

  /**
   * What `create_ledgger` promises: the account comes from the resolver,
   * the information is cut to 120 characters (None when empty), the
   * customer name to 50, the buyer is the party, and nothing else is set.
   */
  lemma CreateLedgerFields(issueDateTime: string, currencyCode: string, buyerName: string, buyerCity: Option<string>,
                           resolver: Resolver, amount: string, s: Shared, buCode: string, taxRate: Option<string>,
                           information: Option<string>, bookingText: Option<string>)
    ensures var l := CreateLedger(issueDateTime, currencyCode, buyerName, buyerCity, resolver, amount, s, buCode,
                                  taxRate, information, bookingText);
      var b := l.receivable;
      && b.base.accountNo == resolver(s.buyerId, s.invoiceId)
      && (b.base.information.Some? <==> Truthy(information))
      && (b.base.information.Some? ==> |b.base.information.value| <= 120
                                       && information.value[..|b.base.information.value|] == b.base.information.value)
      && l.customerName == Some(Prefix(buyerName, 50)) && |l.customerName.value| <= 50
      && l.customerCity == buyerCity
      && b.partyId == s.buyerId && b.invoiceId == s.invoiceId
      && b.base.date == issueDateTime && b.base.amount == amount && b.currencyCode == currencyCode
      && b.base.buCode == Some(buCode) && b.base.tax == taxRate && b.bookingText == bookingText
      && NoBankOrDiscount(b)
  {
  }

  /** `ledger_from_document`: the issue date ("" when absent), the currency ("EUR" when absent) and the buyer. */
  function LedgerFromDocument(resolver: Resolver, inv: Invoice, s: Shared, amount: string, buCode: string,
                              taxRate: Option<string>, information: Option<string>, bookingText: Option<string>): Ledger
  {
    CreateLedger(inv.issueDateTime, if inv.currencyCode != "" then inv.currencyCode else "EUR",
                 inv.buyer.name, inv.buyer.city, resolver, amount, s, buCode, taxRate, information, bookingText)
  }

  /** The currency of a derived ledger is the invoice's, or "EUR" when it has none. */
  lemma CurrencyDefault(resolver: Resolver, inv: Invoice, s: Shared, amount: string, buCode: string,
                        taxRate: Option<string>, information: Option<string>, bookingText: Option<string>)
    ensures var b := LedgerFromDocument(resolver, inv, s, amount, buCode, taxRate, information, bookingText).receivable;
      && (inv.currencyCode == "" ==> b.currencyCode == "EUR")
      && (inv.currencyCode != "" ==> b.currencyCode == inv.currencyCode)
      && b.base.date == inv.issueDateTime
  {
  }

  // ---------------------------------------------------------------------------
  // One ledger per item
  // ---------------------------------------------------------------------------

  /** The item amount: the line total, else the gross price, else the net price, else "". */
  function ItemAmount(item: LineItem): (r: string)
  {
    if item.monetarySummation.Some? then item.monetarySummation.value
    else if item.gross.Some? then item.gross.value
    else if item.net.Some? then item.net.value
    else ""
  }

  /** The product name cut to `n` characters, or None when the item has no name. */
  function NameCut(item: LineItem, n: nat): (r: Option<string>)
    ensures r.Some? <==> Truthy(item.productName)
    ensures r.Some? ==> r.value == Prefix(item.productName.value, n)
  {
    if Truthy(item.productName) then Some(Prefix(item.productName.value, n)) else None
  }

  /** The ledger of one item in items mode. */
  function ItemLedger(resolver: Resolver, inv: Invoice, s: Shared, item: LineItem): (r: Result<Ledger>)
  {
    var buCode :- BuCode(item.taxRate);
    var rateText := if item.taxRate.Some? then Some(FormatRate(item.taxRate.value)) else None;
    Ok(LedgerFromDocument(resolver, inv, s, ItemAmount(item), buCode, rateText, NameCut(item, 120), NameCut(item, 30)))
  }

  function ItemLedgerMaker(resolver: Resolver, inv: Invoice, s: Shared): LineItem -> Result<Ledger>
  {
    (item: LineItem) => ItemLedger(resolver, inv, s, item)
  }

  /**
   * An item's ledger: it fails exactly on a rate other than 0 % or 19 %
   * (or none), and otherwise carries the item's amount, its rate, and its
   * product name cut to 30 (booking text) and 120 (information).
   */
  lemma ItemLedgerFields(resolver: Resolver, inv: Invoice, s: Shared, item: LineItem)
    ensures ItemLedger(resolver, inv, s, item).Ok? <==> item.taxRate == Some(1900) || item.taxRate == Some(0)
    ensures ItemLedger(resolver, inv, s, item).Ok? ==>
      var b := ItemLedger(resolver, inv, s, item).value.receivable;
      && b.base.amount == ItemAmount(item)
      && b.base.buCode == Some(if item.taxRate == Some(1900) then "3" else "200")
      && b.base.tax == Some(FormatRate(item.taxRate.value))
      && b.bookingText == NameCut(item, 30)
      && b.base.information == NameCut(item, 120)
  {
    if item.taxRate == Some(1900) || item.taxRate == Some(0) {
      var l := ItemLedger(resolver, inv, s, item).value;
      CreateLedgerFields(inv.issueDateTime, if inv.currencyCode != "" then inv.currencyCode else "EUR",
                         inv.buyer.name, inv.buyer.city, resolver, ItemAmount(item), s, l.receivable.base.buCode.value,
                         Some(FormatRate(item.taxRate.value)), NameCut(item, 120), NameCut(item, 30));
      if Truthy(item.productName) {
        PrefixIdempotent(item.productName.value, 120);
      }
    }
  }

  /** The item amount prefers the line total, then the gross price, then the net price. */
  lemma ItemAmountPriority(item: LineItem)
    ensures item.monetarySummation.Some? ==> ItemAmount(item) == item.monetarySummation.value
    ensures item.monetarySummation.None? && item.gross.Some? ==> ItemAmount(item) == item.gross.value
    ensures item.monetarySummation.None? && item.gross.None? && item.net.Some? ==> ItemAmount(item) == item.net.value
    ensures item.monetarySummation.None? && item.gross.None? && item.net.None? ==> ItemAmount(item) == ""
  {
  }

  /** The items-mode loop of `retrieve_ledgers`: one ledger per item, in order, or the first error. */
  method ItemLedgers(resolver: Resolver, inv: Invoice, s: Shared) returns (r: Result<seq<Ledger>>)
    ensures r == MapAll(inv.items, ItemLedgerMaker(resolver, inv, s))
  {
    var f := ItemLedgerMaker(resolver, inv, s);
    var ledgers: seq<Ledger> := [];
    for i := 0 to |inv.items|
      invariant MapAll(inv.items[..i], f) == Ok(ledgers)
    {
      assert inv.items[..i + 1][..i] == inv.items[..i];
      var l := ItemLedger(resolver, inv, s, inv.items[i]);
      if l.Err? {
        MapAllPrefixError(inv.items, i + 1, f);
        return Err(l.error);
      }
      ledgers := ledgers + [l.value];
    }
    assert inv.items[..|inv.items|] == inv.items;
    return Ok(ledgers);
  }

  // ---------------------------------------------------------------------------
  // A single ledger for the whole invoice
  // ---------------------------------------------------------------------------

  /** The set of the items' (rate, text) pairs has exactly one element. */
  predicate OneRate(rates: seq<(int, string)>)
  {
    |rates| > 0 && forall i :: 0 <= i < |rates| ==> rates[i] == rates[0]
  }

  /** The whole invoice as one ledger: its single tax rate, its grand total and the buyer's name. */
  function SingleLedger(resolver: Resolver, inv: Invoice, s: Shared): (r: Result<seq<Ledger>>)
    ensures r.Ok? ==> |r.value| == 1
  {
    var rates :- MapAll(inv.items, GetTaxRate);
    if !OneRate(rates) then
      Err(ValueError("Multiple tax rates found in document, cannot create single ledger"))
    else
      var buCode :- BuCode(Some(rates[0].0));
      Ok([LedgerFromDocument(resolver, inv, s, inv.grandTotal, buCode, Some(rates[0].1),
                             Some("Ausgangsrechnung " + s.invoiceId), Some(Prefix(inv.buyer.name, 30)))])
  }

  /**
   * Single mode succeeds exactly when every item has a rate, all items
   * share one rate, and that rate is 0 % or 19 %; it then gives one ledger
   * for the grand total, named after the invoice and booked on the buyer.
   */
  lemma SingleLedgerFields(resolver: Resolver, inv: Invoice, s: Shared)
    ensures SingleLedger(resolver, inv, s).Ok? <==>
      && |inv.items| > 0
      && (forall i :: 0 <= i < |inv.items| ==> inv.items[i].taxRate.Some?)
      && (forall i :: 0 <= i < |inv.items| ==> inv.items[i].taxRate == inv.items[0].taxRate)
      && (inv.items[0].taxRate == Some(1900) || inv.items[0].taxRate == Some(0))
    ensures SingleLedger(resolver, inv, s).Ok? ==>
      var b := SingleLedger(resolver, inv, s).value[0].receivable;
      && b.base.amount == inv.grandTotal
      && b.base.information == Some(Prefix("Ausgangsrechnung " + s.invoiceId, 120))
      && b.bookingText == Some(Prefix(inv.buyer.name, 30))
      && b.base.buCode == Some(if inv.items[0].taxRate == Some(1900) then "3" else "200")
      && b.base.tax == Some(FormatRate(inv.items[0].taxRate.value))
  {
    MapAllOk(inv.items, GetTaxRate);
    var rates := MapAll(inv.items, GetTaxRate);
    if rates.Ok? {
      assert forall i :: 0 <= i < |inv.items| ==> rates.value[i] == (inv.items[i].taxRate.value, FormatRate(inv.items[i].taxRate.value));
      if |inv.items| > 0 && forall i :: 0 <= i < |inv.items| ==> inv.items[i].taxRate == inv.items[0].taxRate {
        assert OneRate(rates.value);
      }
    }
  }

  // ---------------------------------------------------------------------------
  // retrieve_ledgers and zugfert_to_ledger_import
  // ---------------------------------------------------------------------------

  /** `retrieve_ledgers`: the shared values first, then one ledger per item or one for the invoice. */
  function Ledgers(inv: Invoice, resolver: Resolver, itemsAsLedgers: bool): (r: Result<seq<Ledger>>)
    ensures inv.id == "" ==> r == Err(ValueError("Invoice needs to have an ID, but it does not."))
    ensures r.Ok? && !itemsAsLedgers ==> |r.value| == 1
  {
    var s :- SharedFields(inv);
    if itemsAsLedgers then MapAll(inv.items, ItemLedgerMaker(resolver, inv, s))
    else SingleLedger(resolver, inv, s)
  }

  /** `retrieve_ledgers` with its loop over the items. */
  method RetrieveLedgers(inv: Invoice, resolver: Resolver, itemsAsLedgers: bool) returns (r: Result<seq<Ledger>>)
    ensures r == Ledgers(inv, resolver, itemsAsLedgers)
  {
    var s := SharedFields(inv);
    if s.Err? {
      return Err(s.error);
    }
    if itemsAsLedgers {
      r := ItemLedgers(resolver, inv, s.value);
    } else {
      r := SingleLedger(resolver, inv, s.value);
    }
  }

  /**
   * Items mode gives one ledger per item, in order, each the item's own
   * ledger; it fails exactly when some item's rate is neither 0 % nor 19 %.
   */
  lemma ItemsModeLedgers(inv: Invoice, resolver: Resolver)
    requires inv.id != ""
    ensures Ledgers(inv, resolver, true).Ok? <==>
      forall i :: 0 <= i < |inv.items| ==> inv.items[i].taxRate == Some(1900) || inv.items[i].taxRate == Some(0)
    ensures Ledgers(inv, resolver, true).Ok? ==>
      && |Ledgers(inv, resolver, true).value| == |inv.items|
      && forall i :: 0 <= i < |inv.items| ==>
           Ok(Ledgers(inv, resolver, true).value[i]) == ItemLedger(resolver, inv, SharedFields(inv).value, inv.items[i])
  {
    var s := SharedFields(inv).value;
    MapAllOk(inv.items, ItemLedgerMaker(resolver, inv, s));
    forall i | 0 <= i < |inv.items|
      ensures ItemLedger(resolver, inv, s, inv.items[i]).Ok? <==>
              inv.items[i].taxRate == Some(1900) || inv.items[i].taxRate == Some(0)
    {
      ItemLedgerFields(resolver, inv, s, inv.items[i]);
    }
  }

  /**
   * `int(parts[0])`, `int(parts[1])` of the issue date split at "-": the
   * year is read before the month is looked up.
   */
  function IssueYearMonth(issueDateTime: string): (r: Result<(int, int)>)
  {
    var parts := Split(issueDateTime, '-');
    var year :- ParseInt(parts[0]);
    if |parts| < 2 then Err(IndexError("list index out of range"))
    else
      var month :- ParseInt(parts[1]);
      Ok((year, month))
  }

  /** An issue date written as "%Y-%m-%d" gives back its year and month. */
  lemma IssueYearMonthOfIso(d: Date)
    requires Valid(d)
    ensures IssueYearMonth(FormatIso(d)) == Ok((d.year, d.month))
  {
    var y, m, dd := PadNat(d.year, 4), PadNat(d.month, 2), PadNat(d.day, 2);
    assert FormatIso(d) == Join([y, m, dd], '-') by {
      assert Join([dd], '-') == dd;
      assert Join([m, dd], '-') == m + "-" + dd;
    }
    assert NoneContain([y, m, dd], '-') by {
      assert AllDigits(y) && AllDigits(m) && AllDigits(dd);
    }
    SplitJoin([y, m, dd], '-');
    PadNatLength(d.year, 4);
    PadNatLength(d.month, 2);
    ParseIntOfDigits(y);
    ParseIntOfDigits(m);
    PadNatValue(d.year, 4);
    PadNatValue(d.month, 2);
  }

  /**
   * `zugfert_to_ledger_import` after parsing: single mode, a consolidation
   * of the invoice's totals around those ledgers, and the (year, month) of
   * the issue date.
   */
  function ZugferdToLedgerImport(inv: Invoice, resolver: Resolver): (r: Result<(LedgerImport, (int, int))>)
  {
    var ledgers :- Ledgers(inv, resolver, false);
    var consolidate := Consolidate(
      consolidatedAmount := inv.grandTotal,
      consolidatedDate := inv.issueDateTime,
      consolidatedCurrencyCode := inv.currencyCode,
      ledgers := ledgers,
      consolidatedInvoiceId := Some(inv.id),
      consolidatedDeliveryDate := Some(if inv.deliveryOccurrence.Some? then inv.deliveryOccurrence.value else ""),
      consolidatedOrderId := None);
    var li := NewLedgerImport(inv.seller.name, LedgerXmlData, consolidate, Some(SoftwareName));
    var yearMonth :- IssueYearMonth(inv.issueDateTime);
    Ok((li, yearMonth))
  }

  /**
   * The ledger import of an invoice holds exactly the single-mode ledger,
   * the invoice's grand total, date and id, and names this software; its
   * period is the issue date's year and month.
   */
  lemma ZugferdToLedgerImportFields(inv: Invoice, resolver: Resolver)
    ensures ZugferdToLedgerImport(inv, resolver).Ok? <==>
      Ledgers(inv, resolver, false).Ok? && IssueYearMonth(inv.issueDateTime).Ok?
    ensures ZugferdToLedgerImport(inv, resolver).Ok? ==>
      var (li, ym) := ZugferdToLedgerImport(inv, resolver).value;
      && li.consolidate.ledgers == Ledgers(inv, resolver, false).value
      && |li.consolidate.ledgers| == 1
      && li.consolidate.consolidatedAmount == inv.grandTotal
      && li.consolidate.consolidatedDate == inv.issueDateTime
      && li.consolidate.consolidatedInvoiceId == Some(inv.id)
      && li.consolidate.consolidatedOrderId.None?
      && li.generatorInfo == inv.seller.name
      && li.generatingSystem == Some(SoftwareName)
      && li.version == "6.0"
      && ym == IssueYearMonth(inv.issueDateTime).value
  {
  }
}
