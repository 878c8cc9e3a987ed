/**
 * The DATEV ledger-import XML (`datev_creator/ledger_import.py`): the
 * nested records `Base` ⊂ `Base1` ⊂ ledger ⊂ `Consolidate` ⊂ `LedgerImport`
 * and the `xml` properties that build their elements.
 *
 * Each `xml` property is a method that grows a child list the way the
 * source grows its lxml element, and is proved equal to a declarative
 * description: the fixed children, then one leaf per present optional
 * field, in declaration order.
 */
module LedgerXml {
  import opened Common
  import opened Xml

  const NameSpace: string := "http://xml.datev.de/bedi/tps/ledger/v060"
  const XsiNameSpace: string := "http://www.w3.org/2001/XMLSchema-instance"
  const SchemaLocation: string := NameSpace + " Belegverwaltung_online_ledger_import_v060.xsd"

  /** `qn(tag)`: the tag qualified by the ledger namespace. */
  function Qn(tag: string): Name
  {
    Name(Some(NameSpace), tag)
  }

  /** A name given as a plain string, without namespace. */
  function Bare(name: string): Name
  {
    Name(None, name)
  }

  /** The Clark string `qn` builds is the qualified name lxml reads from it. */
  lemma QnIsClark(tag: string)
    ensures ParseName(Clark(NameSpace, tag)) == Qn(tag)
  {
    assert NoChar(NameSpace, '}');
    ClarkSplits(NameSpace, tag);
  }

  /** Python `s[:n]` on an optional text. */
  function Cut(o: Option<string>, n: nat): (r: Option<string>)
    ensures r.Some? <==> o.Some?
    ensures r.Some? ==> r.value == Prefix(o.value, n) && |r.value| <= n
  {
    if o.Some? then Some(Prefix(o.value, n)) else None
  }

  // ---------------------------------------------------------------------------
  // Records
  // ---------------------------------------------------------------------------

  datatype Base = Base(
    date: string,
    amount: string,
    discountAmount: Option<string>,
    accountNo: Option<string>,
    buCode: Option<string>,
    costAmount: Option<string>,
    costCategoryId: Option<string>,
    costCategoryId2: Option<string>,
    tax: Option<string>,
    information: Option<string>)

  datatype Base1 = Base1(
    base: Base,
    currencyCode: string,
    invoiceId: string,
    bookingText: Option<string>,
    typeOfReceivable: Option<string>,
    ownVatId: Option<string>,
    shipFromCountry: Option<string>,
    partyId: Option<string>,
    paidAt: Option<string>,
    internalInvoiceId: Option<string>,
    vatId: Option<string>,
    shipToCountry: Option<string>,
    exchangeRate: Option<string>,
    bankCode: Option<string>,
    bankAccount: Option<string>,
    bankCountry: Option<string>,
    iban: Option<string>,
    swiftCode: Option<string>,
    accountName: Option<string>,
    paymentConditionsId: Option<string>,
    paymentOrder: Option<string>,
    discountPercentage: Option<string>,
    discountPaymentDate: Option<string>,
    discountAmount2: Option<string>,
    discountPercentage2: Option<string>,
    discountPaymentDate2: Option<string>,
    dueDate: Option<string>,
    bpAccountNo: Option<string>,
    deliveryDate: Option<string>,
    orderId: Option<string>)

  /** The three ledger kinds a `Consolidate` may hold. */
  datatype Ledger =
    | Payable(payable: Base1, supplierName: Option<string>, supplierCity: Option<string>)
    | Receivable(receivable: Base1, customerName: Option<string>, customerCity: Option<string>)
    | Cash(cashBase: Base, cashCurrencyCode: string, cashBookingText: string, cashInvoiceId: Option<string>)

  datatype Consolidate = Consolidate(
    consolidatedAmount: string,
    consolidatedDate: string,
    consolidatedCurrencyCode: string,
    ledgers: seq<Ledger>,
    consolidatedInvoiceId: Option<string>,
    consolidatedDeliveryDate: Option<string>,
    consolidatedOrderId: Option<string>)

  datatype LedgerImport = LedgerImport(
    generatorInfo: string,
    xmlData: string,
    consolidate: Consolidate,
    xmlns: string,
    xmlnsXsi: string,
    xsiSchemaLocation: string,
    version: string,
    generatingSystem: Option<string>)

  /** `LedgerImport(...)` with the dataclass defaults for namespace, schema location and version. */
  function NewLedgerImport(generatorInfo: string, xmlData: string, consolidate: Consolidate,
                           generatingSystem: Option<string>): (r: LedgerImport)
    ensures r.version == "6.0" && r.xsiSchemaLocation == SchemaLocation
    ensures r.xmlns == NameSpace && r.xmlnsXsi == XsiNameSpace
  {
    LedgerImport(generatorInfo, xmlData, consolidate, NameSpace, XsiNameSpace, SchemaLocation, "6.0",
                 generatingSystem)
  }

  // ---------------------------------------------------------------------------
  // What each element holds
  // ---------------------------------------------------------------------------

  /** The optional children of `<base>`, in the order the builder considers them. */
  function BaseRun(b: Base): Run
  {
    Then(Then(Then(Then(Then(Then(Then(Then(Start,
      Qn("discountAmount"), b.discountAmount),
      Qn("accountNo"), b.accountNo),
      Qn("buCode"), b.buCode),
      Qn("costAmount"), b.costAmount),
      Qn("costCategoryId"), b.costCategoryId),
      Qn("costCategoryId2"), b.costCategoryId2),
      Qn("tax"), b.tax),
      Qn("information"), Cut(b.information, 120))
  }

  /** The children of `<base>`: date and amount always, then each optional field that is present. */
  function BaseChildren(b: Base): seq<Element>
  {
    Grow([Leaf(Qn("date"), b.date), Leaf(Qn("amount"), b.amount)], BaseRun(b))
  }

  function BaseElement(b: Base): Element
  {
    Element(Qn("base"), [], [], None, BaseChildren(b))
  }

  /** The optional children of `<base1>`; five of them carry no namespace. */
  function Base1Run(b: Base1): Run
  {
    Then(Then(Then(Then(Then(Then(Then(Then(Then(Then(Then(Then(Then(Then(Then(Then(Then(Then(Then(Then(Then(Then(Then(Then(Then(Then(Then(Start,
      Qn("bookingText"), Cut(b.bookingText, 30)),
      Qn("typeOfReceivable"), b.typeOfReceivable),
      Qn("ownVatId"), b.ownVatId),
      Qn("shipFromCountry"), b.shipFromCountry),
      Qn("partyId"), b.partyId),
      Qn("paidAt"), b.paidAt),
      Qn("internalInvoiceId"), b.internalInvoiceId),
      Qn("vatId"), b.vatId),
      Qn("shipToCountry"), b.shipToCountry),
      Qn("exchangeRate"), b.exchangeRate),
      Qn("bankCode"), b.bankCode),
      Qn("bankAccount"), b.bankAccount),
      Qn("bankCountry"), b.bankCountry),
      Qn("iban"), b.iban),
      Qn("swiftCode"), b.swiftCode),
      Qn("accountName"), b.accountName),
      Bare("paymentConditionsId"), b.paymentConditionsId),
      Qn("paymentOrder"), b.paymentOrder),
      Bare("discountPercentage"), b.discountPercentage),
      Bare("discountPaymentDate"), b.discountPaymentDate),
      Qn("discountAmount2"), b.discountAmount2),
      Bare("discountPercentage2"), b.discountPercentage2),
      Bare("discountPaymentDate2"), b.discountPaymentDate2),
      Qn("dueDate"), b.dueDate),
      Qn("bpAccountNo"), b.bpAccountNo),
      Qn("deliveryDate"), b.deliveryDate),
      Qn("orderId"), b.orderId)
  }

  /**
   * The children of `<base1>`: those of `<base>`, currency code and invoice
   * id, then each optional field that is present.
   */
  function Base1Children(b: Base1): seq<Element>
  {
    Grow(BaseChildren(b.base) + [Leaf(Qn("currencyCode"), b.currencyCode)] + [Leaf(Qn("invoiceId"), b.invoiceId)],
         Base1Run(b))
  }

  function Base1Element(b: Base1): Element
  {
    Element(Qn("base1"), [], [], None, Base1Children(b))
  }

  function LedgerTag(l: Ledger): Name
  {
    match l
    case Payable(_, _, _) => Qn("accountsPayableLedger")
    case Receivable(_, _, _) => Qn("accountsReceivableLedger")
    case Cash(_, _, _, _) => Qn("cashLedger")
  }

  /** The children every ledger of its kind has. */
  function LedgerFixed(l: Ledger): seq<Element>
  {
    match l
    case Payable(b1, _, _) => Base1Children(b1)
    case Receivable(b1, _, _) => Base1Children(b1)
    case Cash(b, currency, text, _) =>
      BaseChildren(b) + [Leaf(Qn("currencyCode"), currency)] + [Leaf(Qn("bookingText"), text)]
  }

  /** The optional children that follow; names are not truncated. */
  function LedgerRun(l: Ledger): Run
  {
    match l
    case Payable(_, name, city) => Then(Then(Start, Qn("supplierName"), name), Qn("supplierCity"), city)
    case Receivable(_, name, city) => Then(Then(Start, Qn("customerName"), name), Qn("customerCity"), city)
    case Cash(_, _, _, invoice) => Then(Start, Qn("invoiceId"), invoice)
  }

  function LedgerElement(l: Ledger): Element
  {
    Element(LedgerTag(l), [], [], None, Grow(LedgerFixed(l), LedgerRun(l)))
  }

  /** The attributes of `<consolidate>`: three always, three only when present. */
  function ConsolidateAttributes(c: Consolidate): seq<(Name, string)>
  {
    [(Bare("consolidatedAmount"), c.consolidatedAmount)]
    + [(Bare("consolidatedDate"), c.consolidatedDate)]
    + [(Bare("consolidatedCurrencyCode"), c.consolidatedCurrencyCode)]
    + OptionalAttribute(Bare("consolidatedInvoiceId"), c.consolidatedInvoiceId)
    + OptionalAttribute(Bare("consolidatedDeliveryDate"), c.consolidatedDeliveryDate)
    + OptionalAttribute(Bare("consolidatedOrderId"), c.consolidatedOrderId)
  }

  /** One element per ledger, in input order. */
  function LedgerElements(ls: seq<Ledger>): (r: seq<Element>)
    ensures |r| == |ls|
  {
    if ls == [] then [] else LedgerElements(ls[..|ls| - 1]) + [LedgerElement(ls[|ls| - 1])]
  }

  lemma {:induction false} LedgerElementsAt(ls: seq<Ledger>, i: nat)
    requires i < |ls|
    ensures LedgerElements(ls)[i] == LedgerElement(ls[i])
  {
    if i < |ls| - 1 {
      LedgerElementsAt(ls[..|ls| - 1], i);
    }
  }

  function ConsolidateElement(c: Consolidate): Element
  {
    Element(Qn("consolidate"), ConsolidateAttributes(c), [], None, LedgerElements(c.ledgers))
  }

  function LedgerImportAttributes(li: LedgerImport): seq<(Name, string)>
  {
    [(Name(Some(XsiNameSpace), "schemaLocation"), li.xsiSchemaLocation)]
    + [(Bare("version"), li.version)]
    + [(Bare("generator_info"), li.generatorInfo)]
    + [(Bare("xml_data"), li.xmlData)]
    + OptionalAttribute(Bare("generating_system"), li.generatingSystem)
  }

  function LedgerImportElement(li: LedgerImport): Element
  {
    Element(Qn("LedgerImport"), LedgerImportAttributes(li), [(None, li.xmlns), (Some("xsi"), li.xmlnsXsi)], None,
            [ConsolidateElement(li.consolidate)])
  }

  // ---------------------------------------------------------------------------
  // The builders
  // ---------------------------------------------------------------------------

  /** `Base.xml`. */
  method BuildBase(b: Base) returns (e: Element)
    ensures e == BaseElement(b)
  {
    var children := [Leaf(Qn("date"), b.date), Leaf(Qn("amount"), b.amount)];
    ghost var fixed, run := children, Start;
    children, run := AppendOptional(children, fixed, run, Qn("discountAmount"), b.discountAmount);
    children, run := AppendOptional(children, fixed, run, Qn("accountNo"), b.accountNo);
    children, run := AppendOptional(children, fixed, run, Qn("buCode"), b.buCode);
    children, run := AppendOptional(children, fixed, run, Qn("costAmount"), b.costAmount);
    children, run := AppendOptional(children, fixed, run, Qn("costCategoryId"), b.costCategoryId);
    children, run := AppendOptional(children, fixed, run, Qn("costCategoryId2"), b.costCategoryId2);
    children, run := AppendOptional(children, fixed, run, Qn("tax"), b.tax);
    var information := if b.information.Some? then Some(Prefix(b.information.value, 120)) else None;
    children, run := AppendOptional(children, fixed, run, Qn("information"), information);
    e := Element(Qn("base"), [], [], None, children);
  }

  /** `Base1.xml`: the children of `<base>` are moved over first. */
  method BuildBase1(b: Base1) returns (e: Element)
    ensures e == Base1Element(b)
  {
    var base := BuildBase(b.base);
    var children := AppendChildren([], base);
    assert children == BaseChildren(b.base);
    children := children + [Leaf(Qn("currencyCode"), b.currencyCode)];
    children := children + [Leaf(Qn("invoiceId"), b.invoiceId)];
    ghost var fixed, run := children, Start;
    var bookingText := if b.bookingText.Some? then Some(Prefix(b.bookingText.value, 30)) else None;
    children, run := AppendOptional(children, fixed, run, Qn("bookingText"), bookingText);
    children, run := AppendOptional(children, fixed, run, Qn("typeOfReceivable"), b.typeOfReceivable);
    children, run := AppendOptional(children, fixed, run, Qn("ownVatId"), b.ownVatId);
    children, run := AppendOptional(children, fixed, run, Qn("shipFromCountry"), b.shipFromCountry);
    children, run := AppendOptional(children, fixed, run, Qn("partyId"), b.partyId);
    children, run := AppendOptional(children, fixed, run, Qn("paidAt"), b.paidAt);
    children, run := AppendOptional(children, fixed, run, Qn("internalInvoiceId"), b.internalInvoiceId);
    children, run := AppendOptional(children, fixed, run, Qn("vatId"), b.vatId);
    children, run := AppendOptional(children, fixed, run, Qn("shipToCountry"), b.shipToCountry);
    children, run := AppendOptional(children, fixed, run, Qn("exchangeRate"), b.exchangeRate);
    children, run := AppendOptional(children, fixed, run, Qn("bankCode"), b.bankCode);
    children, run := AppendOptional(children, fixed, run, Qn("bankAccount"), b.bankAccount);
    children, run := AppendOptional(children, fixed, run, Qn("bankCountry"), b.bankCountry);
    children, run := AppendOptional(children, fixed, run, Qn("iban"), b.iban);
    children, run := AppendOptional(children, fixed, run, Qn("swiftCode"), b.swiftCode);
    children, run := AppendOptional(children, fixed, run, Qn("accountName"), b.accountName);
    children, run := AppendOptional(children, fixed, run, Bare("paymentConditionsId"), b.paymentConditionsId);
    children, run := AppendOptional(children, fixed, run, Qn("paymentOrder"), b.paymentOrder);
    children, run := AppendOptional(children, fixed, run, Bare("discountPercentage"), b.discountPercentage);
    children, run := AppendOptional(children, fixed, run, Bare("discountPaymentDate"), b.discountPaymentDate);
    children, run := AppendOptional(children, fixed, run, Qn("discountAmount2"), b.discountAmount2);
    children, run := AppendOptional(children, fixed, run, Bare("discountPercentage2"), b.discountPercentage2);
    children, run := AppendOptional(children, fixed, run, Bare("discountPaymentDate2"), b.discountPaymentDate2);
    children, run := AppendOptional(children, fixed, run, Qn("dueDate"), b.dueDate);
    children, run := AppendOptional(children, fixed, run, Qn("bpAccountNo"), b.bpAccountNo);
    children, run := AppendOptional(children, fixed, run, Qn("deliveryDate"), b.deliveryDate);
    children, run := AppendOptional(children, fixed, run, Qn("orderId"), b.orderId);
    e := Element(Qn("base1"), [], [], None, children);
  }

  /** The `xml` property of `AccountsPayableLedger`, `AccountsReceivableLedger` and `CashLedger`. */
  method BuildLedger(l: Ledger) returns (e: Element)
    ensures e == LedgerElement(l)
  {
    match l
    case Payable(b1, name, city) =>
      var inner := BuildBase1(b1);
      var children := AppendChildren([], inner);
      assert children == Base1Children(b1);
      ghost var fixed, run := children, Start;
      children, run := AppendOptional(children, fixed, run, Qn("supplierName"), name);
      children, run := AppendOptional(children, fixed, run, Qn("supplierCity"), city);
      e := Element(Qn("accountsPayableLedger"), [], [], None, children);
    case Receivable(b1, name, city) =>
      var inner := BuildBase1(b1);
      var children := AppendChildren([], inner);
      assert children == Base1Children(b1);
      ghost var fixed, run := children, Start;
      children, run := AppendOptional(children, fixed, run, Qn("customerName"), name);
      children, run := AppendOptional(children, fixed, run, Qn("customerCity"), city);
      e := Element(Qn("accountsReceivableLedger"), [], [], None, children);
    case Cash(b, currency, text, invoice) =>
      var inner := BuildBase(b);
      var children := AppendChildren([], inner);
      assert children == BaseChildren(b);
      children := children + [Leaf(Qn("currencyCode"), currency)];
      children := children + [Leaf(Qn("bookingText"), text)];
      ghost var fixed, run := children, Start;
      children, run := AppendOptional(children, fixed, run, Qn("invoiceId"), invoice);
      e := Element(Qn("cashLedger"), [], [], None, children);
  }

  /** `Consolidate.xml`. */
  method BuildConsolidate(c: Consolidate) returns (e: Element)
    ensures e == ConsolidateElement(c)
  {
    var attributes := [(Bare("consolidatedAmount"), c.consolidatedAmount)];
    attributes := attributes + [(Bare("consolidatedDate"), c.consolidatedDate)];
    attributes := attributes + [(Bare("consolidatedCurrencyCode"), c.consolidatedCurrencyCode)];
    attributes := AppendAttribute(attributes, Bare("consolidatedInvoiceId"), c.consolidatedInvoiceId);
    attributes := AppendAttribute(attributes, Bare("consolidatedDeliveryDate"), c.consolidatedDeliveryDate);
    attributes := AppendAttribute(attributes, Bare("consolidatedOrderId"), c.consolidatedOrderId);
    var children: seq<Element> := [];
    for i := 0 to |c.ledgers|
      invariant children == LedgerElements(c.ledgers[..i])
    {
      var ledger := BuildLedger(c.ledgers[i]);
      assert c.ledgers[..i + 1][..i] == c.ledgers[..i];
      children := children + [ledger];
    }
    assert c.ledgers[..|c.ledgers|] == c.ledgers;
    e := Element(Qn("consolidate"), attributes, [], None, children);
  }

  /** `LedgerImport.xml`: the root, with its namespace map and the one `<consolidate>`. */
  method BuildLedgerImport(li: LedgerImport) returns (e: Element)
    ensures e == LedgerImportElement(li)
  {
    var attributes := [(Name(Some(XsiNameSpace), "schemaLocation"), li.xsiSchemaLocation)];
    attributes := attributes + [(Bare("version"), li.version)];
    attributes := attributes + [(Bare("generator_info"), li.generatorInfo)];
    attributes := attributes + [(Bare("xml_data"), li.xmlData)];
    attributes := AppendAttribute(attributes, Bare("generating_system"), li.generatingSystem);
    var consolidate := BuildConsolidate(li.consolidate);
    e := Element(Qn("LedgerImport"), attributes, [(None, li.xmlns), (Some("xsi"), li.xmlnsXsi)], None,
                 [consolidate]);
  }
}
