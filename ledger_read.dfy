/**
 * Reading the ledger-import tree back: a reader for each element the
 * builders produce, and the proof that it recovers every field, absent
 * optional fields included, with texts cut as the builders cut them.
 */
module LedgerRead {
  import opened Common
  import opened Xml
  import opened LedgerXml

  // ---------------------------------------------------------------------------
  // The tags of the optional children
  // ---------------------------------------------------------------------------

  /** The tags `<base>` considers for its optional children, in order. */
  const BaseTags: seq<Name> := [Qn("discountAmount"), Qn("accountNo"), Qn("buCode"), Qn("costAmount"), Qn("costCategoryId"), Qn("costCategoryId2"), Qn("tax"), Qn("information")]

  /** The tags `<base1>` considers for its optional children, in order. */
  const Base1Tags: seq<Name> := [Qn("bookingText"), Qn("typeOfReceivable"), Qn("ownVatId"), Qn("shipFromCountry"), Qn("partyId"), Qn("paidAt"), Qn("internalInvoiceId"), Qn("vatId"), Qn("shipToCountry"), Qn("exchangeRate"), Qn("bankCode"), Qn("bankAccount"), Qn("bankCountry"), Qn("iban"), Qn("swiftCode"), Qn("accountName"), Bare("paymentConditionsId"), Qn("paymentOrder"), Bare("discountPercentage"), Bare("discountPaymentDate"), Qn("discountAmount2"), Bare("discountPercentage2"), Bare("discountPaymentDate2"), Qn("dueDate"), Qn("bpAccountNo"), Qn("deliveryDate"), Qn("orderId")]

  lemma BaseTagsDistinct()
    ensures Distinct(BaseTags) && Qn("amount") !in BaseTags
  {
    assert forall i, j :: 0 <= i < j < |BaseTags| ==> BaseTags[i] != BaseTags[j];
  }

  lemma Base1TagsDistinct()
    ensures Distinct(Base1Tags)
  {
    Base1TagsDistinct10();
    Base1TagsDistinct16();
    Base1TagsDistinct21();
    Base1TagsDistinct24();
    Base1TagsDistinct27();
    assert forall i, j :: 0 <= i < j < |Base1Tags| ==> Base1Tags[i] != Base1Tags[j];
  }

  /** The tags of `<base1>` at positions 0 to 9 differ from all before them. */
  lemma Base1TagsDistinct10()
    ensures forall i, j :: 0 <= i < j < 10 && 0 <= j ==> Base1Tags[i] != Base1Tags[j]
  {
  }

  /** The tags of `<base1>` at positions 10 to 15 differ from all before them. */
  lemma Base1TagsDistinct16()
    ensures forall i, j :: 0 <= i < j < 16 && 10 <= j ==> Base1Tags[i] != Base1Tags[j]
  {
  }

  /** The tags of `<base1>` at positions 16 to 20 differ from all before them. */
  lemma Base1TagsDistinct21()
    ensures forall i, j :: 0 <= i < j < 21 && 16 <= j ==> Base1Tags[i] != Base1Tags[j]
  {
  }

  /** The tags of `<base1>` at positions 21 to 23 differ from all before them. */
  lemma Base1TagsDistinct24()
    ensures forall i, j :: 0 <= i < j < 24 && 21 <= j ==> Base1Tags[i] != Base1Tags[j]
  {
  }

  /** The tags of `<base1>` at positions 24 to 26 differ from all before them. */
  lemma Base1TagsDistinct27()
    ensures forall i, j :: 0 <= i < j < 27 && 24 <= j ==> Base1Tags[i] != Base1Tags[j]
  {
  }

  /** The tags that may precede or follow the optional children of `<base1>` are not among them. */
  lemma Base1Fresh()
    ensures Qn("invoiceId") !in Base1Tags
    ensures Qn("supplierName") !in Base1Tags && Qn("supplierCity") !in Base1Tags
    ensures Qn("customerName") !in Base1Tags && Qn("customerCity") !in Base1Tags
  {
    assert forall i :: 0 <= i < |Base1Tags| ==>
      && Base1Tags[i] != Qn("invoiceId")
      && Base1Tags[i] != Qn("supplierName") && Base1Tags[i] != Qn("supplierCity")
      && Base1Tags[i] != Qn("customerName") && Base1Tags[i] != Qn("customerCity");
  }

  lemma BaseRunTags(b: Base)
    ensures Tags(BaseRun(b)) == BaseTags
  {
    var r8 := BaseRun(b);
    var r7 := r8.init;
    var r6 := r7.init;
    var r5 := r6.init;
    var r4 := r5.init;
    var r3 := r4.init;
    var r2 := r3.init;
    var r1 := r2.init;
    var r0 := r1.init;
    assert Tags(r0) == BaseTags[..0];
    assert Tags(r1) == BaseTags[..1];
    assert Tags(r2) == BaseTags[..2];
    assert Tags(r3) == BaseTags[..3];
    assert Tags(r4) == BaseTags[..4];
    assert Tags(r5) == BaseTags[..5];
    assert Tags(r6) == BaseTags[..6];
    assert Tags(r7) == BaseTags[..7];
    assert Tags(r8) == BaseTags[..8];
  }

  /** The first 6 optional tags of `<base1>`. */
  lemma Base1RunTags6(b: Base1)
    ensures Tags(Base1Run(b).init.init.init.init.init.init.init.init.init.init.init.init.init.init.init.init.init.init.init.init.init) == Base1Tags[..6]
  {
    var r6 := Base1Run(b).init.init.init.init.init.init.init.init.init.init.init.init.init.init.init.init.init.init.init.init.init;
    var r5 := r6.init;
    var r4 := r5.init;
    var r3 := r4.init;
    var r2 := r3.init;
    var r1 := r2.init;
    var r0 := r1.init;
    assert Tags(r0) == Base1Tags[..0];
    assert Tags(r1) == Base1Tags[..1];
    assert Tags(r2) == Base1Tags[..2];
    assert Tags(r3) == Base1Tags[..3];
    assert Tags(r4) == Base1Tags[..4];
    assert Tags(r5) == Base1Tags[..5];
    assert Tags(r6) == Base1Tags[..6];
  }

  /** The first 12 optional tags of `<base1>`. */
  lemma Base1RunTags12(b: Base1)
    ensures Tags(Base1Run(b).init.init.init.init.init.init.init.init.init.init.init.init.init.init.init) == Base1Tags[..12]
  {
    Base1RunTags6(b);
    var r12 := Base1Run(b).init.init.init.init.init.init.init.init.init.init.init.init.init.init.init;
    var r11 := r12.init;
    var r10 := r11.init;
    var r9 := r10.init;
    var r8 := r9.init;
    var r7 := r8.init;
    var r6 := r7.init;
    assert Tags(r7) == Base1Tags[..7];
    assert Tags(r8) == Base1Tags[..8];
    assert Tags(r9) == Base1Tags[..9];
    assert Tags(r10) == Base1Tags[..10];
    assert Tags(r11) == Base1Tags[..11];
    assert Tags(r12) == Base1Tags[..12];
  }

  /** The first 19 optional tags of `<base1>`. */
  lemma Base1RunTags19(b: Base1)
    ensures Tags(Base1Run(b).init.init.init.init.init.init.init.init) == Base1Tags[..19]
  {
    Base1RunTags12(b);
    var r19 := Base1Run(b).init.init.init.init.init.init.init.init;
    var r18 := r19.init;
    var r17 := r18.init;
    var r16 := r17.init;
    var r15 := r16.init;
    var r14 := r15.init;
    var r13 := r14.init;
    var r12 := r13.init;
    assert Tags(r13) == Base1Tags[..13];
    assert Tags(r14) == Base1Tags[..14];
    assert Tags(r15) == Base1Tags[..15];
    assert Tags(r16) == Base1Tags[..16];
    assert Tags(r17) == Base1Tags[..17];
    assert Tags(r18) == Base1Tags[..18];
    assert Tags(r19) == Base1Tags[..19];
  }

  lemma Base1RunTags(b: Base1)
    ensures Tags(Base1Run(b)) == Base1Tags
  {
    Base1RunTags19(b);
    var r27 := Base1Run(b);
    var r26 := r27.init;
    var r25 := r26.init;
    var r24 := r25.init;
    var r23 := r24.init;
    var r22 := r23.init;
    var r21 := r22.init;
    var r20 := r21.init;
    var r19 := r20.init;
    assert Tags(r20) == Base1Tags[..20];
    assert Tags(r21) == Base1Tags[..21];
    assert Tags(r22) == Base1Tags[..22];
    assert Tags(r23) == Base1Tags[..23];
    assert Tags(r24) == Base1Tags[..24];
    assert Tags(r25) == Base1Tags[..25];
    assert Tags(r26) == Base1Tags[..26];
    assert Tags(r27) == Base1Tags[..27];
  }

  // ---------------------------------------------------------------------------
  // What the builders keep of a record
  // ---------------------------------------------------------------------------

  /** `<base>` keeps the first 120 characters of the information text. */
  function NormalBase(b: Base): Base
  {
    b.(information := Cut(b.information, 120))
  }

  /** `<base1>` keeps the first 30 characters of the booking text. */
  function NormalBase1(b: Base1): Base1
  {
    b.(base := NormalBase(b.base), bookingText := Cut(b.bookingText, 30))
  }

  function NormalLedger(l: Ledger): Ledger
  {
    match l
    case Payable(b1, name, city) => Payable(NormalBase1(b1), name, city)
    case Receivable(b1, name, city) => Receivable(NormalBase1(b1), name, city)
    case Cash(b, currency, text, invoice) => Cash(NormalBase(b), currency, text, invoice)
  }

  function NormalLedgers(ls: seq<Ledger>): (r: seq<Ledger>)
    ensures |r| == |ls|
  {
    if ls == [] then [] else NormalLedgers(ls[..|ls| - 1]) + [NormalLedger(ls[|ls| - 1])]
  }

  function NormalConsolidate(c: Consolidate): Consolidate
  {
    c.(ledgers := NormalLedgers(c.ledgers))
  }

  function NormalLedgerImport(li: LedgerImport): LedgerImport
  {
    li.(consolidate := NormalConsolidate(li.consolidate))
  }

  // ---------------------------------------------------------------------------
  // The readers
  // ---------------------------------------------------------------------------

  /** The fields of `<base>`, given its required texts and its run of optional ones. */
  function BaseOfRun(date: string, amount: string, run: Run): Option<Base>
  {
    match run
    case Then(Then(Then(Then(Then(Then(Then(Then(Start, _, discountAmount), _, accountNo), _, buCode), _, costAmount), _, costCategoryId), _, costCategoryId2), _, tax), _, information) =>
      Some(Base(date, amount, discountAmount, accountNo, buCode, costAmount, costCategoryId, costCategoryId2, tax, information))
    case _ => None
  }

  /** The fields of `<base>` from its children. */
  function ReadBase(cs: seq<Element>): Option<Base>
  {
    var (front, run) := ReadRun(cs, BaseTags);
    if |front| != 2 then None
    else
      var date :- LeafText(front[0], Qn("date"));
      var amount :- LeafText(front[1], Qn("amount"));
      BaseOfRun(date, amount, run)
  }

  /** The fields of `<base1>`, given its `<base>` part, its required texts and its run of optional ones. */
  function Base1OfRun(base: Base, currencyCode: string, invoiceId: string, run: Run): Option<Base1>
  {
    match run
    case Then(Then(Then(Then(Then(Then(Then(Then(Then(Then(Then(Then(Then(Then(Then(Then(Then(Then(Then(Then(Then(Then(Then(Then(Then(Then(Then(Start, _, bookingText), _, typeOfReceivable), _, ownVatId), _, shipFromCountry), _, partyId), _, paidAt), _, internalInvoiceId), _, vatId), _, shipToCountry), _, exchangeRate), _, bankCode), _, bankAccount), _, bankCountry), _, iban), _, swiftCode), _, accountName), _, paymentConditionsId), _, paymentOrder), _, discountPercentage), _, discountPaymentDate), _, discountAmount2), _, discountPercentage2), _, discountPaymentDate2), _, dueDate), _, bpAccountNo), _, deliveryDate), _, orderId) =>
      Some(Base1(base, currencyCode, invoiceId, bookingText, typeOfReceivable, ownVatId, shipFromCountry, partyId, paidAt, internalInvoiceId, vatId, shipToCountry, exchangeRate, bankCode, bankAccount, bankCountry, iban, swiftCode, accountName, paymentConditionsId, paymentOrder, discountPercentage, discountPaymentDate, discountAmount2, discountPercentage2, discountPaymentDate2, dueDate, bpAccountNo, deliveryDate, orderId))
    case _ => None
  }

  /** The fields of `<base1>` from its children. */
  function ReadBase1(cs: seq<Element>): Option<Base1>
  {
    var (front, run) := ReadRun(cs, Base1Tags);
    if |front| < 2 then None
    else
      var currencyCode :- LeafText(front[|front| - 2], Qn("currencyCode"));
      var invoiceId :- LeafText(front[|front| - 1], Qn("invoiceId"));
      var base :- ReadBase(front[..|front| - 2]);
      Base1OfRun(base, currencyCode, invoiceId, run)
  }

  const SupplierTags: seq<Name> := [Qn("supplierName"), Qn("supplierCity")]
  const CustomerTags: seq<Name> := [Qn("customerName"), Qn("customerCity")]
  const CashTags: seq<Name> := [Qn("invoiceId")]

  /** A ledger from its element: the tag says which kind. */
  function ReadLedger(e: Element): Option<Ledger>
  {
    if e.tag == Qn("accountsPayableLedger") then
      var (front, run) := ReadRun(e.children, SupplierTags);
      var b1 :- ReadBase1(front);
      match run
      case Then(Then(Start, _, name), _, city) => Some(Payable(b1, name, city))
      case _ => None
    else if e.tag == Qn("accountsReceivableLedger") then
      var (front, run) := ReadRun(e.children, CustomerTags);
      var b1 :- ReadBase1(front);
      match run
      case Then(Then(Start, _, name), _, city) => Some(Receivable(b1, name, city))
      case _ => None
    else if e.tag == Qn("cashLedger") then
      var (front, run) := ReadRun(e.children, CashTags);
      if |front| < 2 then None
      else
        var currencyCode :- LeafText(front[|front| - 2], Qn("currencyCode"));
        var bookingText :- LeafText(front[|front| - 1], Qn("bookingText"));
        var b :- ReadBase(front[..|front| - 2]);
        match run
        case Then(Start, _, invoice) => Some(Cash(b, currencyCode, bookingText, invoice))
        case _ => None
    else
      None
  }

  function ReadLedgers(cs: seq<Element>): (r: Option<seq<Ledger>>)
    ensures r.Some? ==> |r.value| == |cs|
  {
    if cs == [] then Some([])
    else
      var init :- ReadLedgers(cs[..|cs| - 1]);
      var last :- ReadLedger(cs[|cs| - 1]);
      Some(init + [last])
  }

  /** A `Consolidate` from `<consolidate>`: three required attributes, three optional ones, the ledgers. */
  function ReadConsolidate(e: Element): Option<Consolidate>
  {
    if e.tag != Qn("consolidate") then None
    else
      var amount :- Get(e.attributes, Bare("consolidatedAmount"));
      var date :- Get(e.attributes, Bare("consolidatedDate"));
      var currencyCode :- Get(e.attributes, Bare("consolidatedCurrencyCode"));
      var ledgers :- ReadLedgers(e.children);
      Some(Consolidate(amount, date, currencyCode, ledgers,
                       Get(e.attributes, Bare("consolidatedInvoiceId")),
                       Get(e.attributes, Bare("consolidatedDeliveryDate")),
                       Get(e.attributes, Bare("consolidatedOrderId"))))
  }

  /** A `LedgerImport` from the root element: its attributes, its namespace map and its one child. */
  function ReadLedgerImport(e: Element): Option<LedgerImport>
  {
    if e.tag != Qn("LedgerImport") || |e.children| != 1 then None
    else
      var location :- Get(e.attributes, Name(Some(XsiNameSpace), "schemaLocation"));
      var version :- Get(e.attributes, Bare("version"));
      var generatorInfo :- Get(e.attributes, Bare("generator_info"));
      var xmlData :- Get(e.attributes, Bare("xml_data"));
      var xmlns :- Get(e.nsmap, None);
      var xmlnsXsi :- Get(e.nsmap, Some("xsi"));
      var consolidate :- ReadConsolidate(e.children[0]);
      Some(LedgerImport(generatorInfo, xmlData, consolidate, xmlns, xmlnsXsi, location, version,
                        Get(e.attributes, Bare("generating_system"))))
  }

  // ---------------------------------------------------------------------------
  // Round trips
  // ---------------------------------------------------------------------------

  lemma BaseOfRunOf(b: Base)
    ensures BaseOfRun(b.date, b.amount, BaseRun(b)) == Some(NormalBase(b))
  {
  }

  lemma ReadBaseOf(b: Base)
    ensures ReadBase(BaseChildren(b)) == Some(NormalBase(b))
  {
    BaseRunTags(b);
    BaseTagsDistinct();
    ReadRunOfGrow([Leaf(Qn("date"), b.date), Leaf(Qn("amount"), b.amount)], BaseRun(b));
    BaseOfRunOf(b);
  }

  lemma Base1OfRunOf(b: Base1)
    ensures Base1OfRun(NormalBase(b.base), b.currencyCode, b.invoiceId, Base1Run(b)) == Some(NormalBase1(b))
  {
  }

  lemma ReadBase1Of(b: Base1)
    ensures ReadBase1(Base1Children(b)) == Some(NormalBase1(b))
  {
    var fixed := BaseChildren(b.base) + [Leaf(Qn("currencyCode"), b.currencyCode)] + [Leaf(Qn("invoiceId"), b.invoiceId)];
    Base1RunTags(b);
    Base1TagsDistinct();
    Base1Fresh();
    ReadRunOfGrow(fixed, Base1Run(b));
    assert fixed[..|fixed| - 2] == BaseChildren(b.base);
    ReadBaseOf(b.base);
    Base1OfRunOf(b);
  }

  /** The last child of `<base1>` carries `invoiceId` or one of its optional tags. */
  lemma Base1ChildrenLast(b: Base1)
    ensures var cs := Base1Children(b);
      |cs| > 0 && (cs[|cs| - 1].tag == Qn("invoiceId") || cs[|cs| - 1].tag in Tags(Base1Run(b)))
  {
    var fixed := BaseChildren(b.base) + [Leaf(Qn("currencyCode"), b.currencyCode)] + [Leaf(Qn("invoiceId"), b.invoiceId)];
    GrowLast(fixed, Base1Run(b));
  }

  /** A supplier's or customer's name and city are read back off the children of its ledger. */
  lemma ReadPartyRun(b1: Base1, nameTag: Name, cityTag: Name, name: Option<string>, city: Option<string>)
    requires nameTag != cityTag
    requires nameTag != Qn("invoiceId") && cityTag != Qn("invoiceId")
    requires nameTag !in Base1Tags && cityTag !in Base1Tags
    ensures var run := Then(Then(Start, nameTag, name), cityTag, city);
      ReadRun(Grow(Base1Children(b1), run), [nameTag, cityTag]) == (Base1Children(b1), run)
  {
    var run := Then(Then(Start, nameTag, name), cityTag, city);
    assert Tags(run.init) == [nameTag];
    assert Tags(run) == [nameTag, cityTag];
    Base1ChildrenLast(b1);
    Base1RunTags(b1);
    ReadRunOfGrow(Base1Children(b1), run);
  }

  lemma ReadCashRun(l: Ledger)
    requires l.Cash?
    ensures ReadRun(Grow(LedgerFixed(l), LedgerRun(l)), Tags(LedgerRun(l))) == (LedgerFixed(l), LedgerRun(l))
    ensures LedgerFixed(l)[..|LedgerFixed(l)| - 2] == BaseChildren(l.cashBase)
  {
    var fixed := LedgerFixed(l);
    assert fixed[|fixed| - 1].tag == Qn("bookingText");
    assert Tags(LedgerRun(l)) == [Qn("invoiceId")];
    ReadRunOfGrow(fixed, LedgerRun(l));
  }

  lemma ReadPayableOf(l: Ledger)
    requires l.Payable?
    ensures ReadLedger(LedgerElement(l)) == Some(NormalLedger(l))
  {
    Base1Fresh();
    ReadPartyRun(l.payable, Qn("supplierName"), Qn("supplierCity"), l.supplierName, l.supplierCity);
    ReadBase1Of(l.payable);
  }

  lemma ReadReceivableOf(l: Ledger)
    requires l.Receivable?
    ensures ReadLedger(LedgerElement(l)) == Some(NormalLedger(l))
  {
    Base1Fresh();
    ReadPartyRun(l.receivable, Qn("customerName"), Qn("customerCity"), l.customerName, l.customerCity);
    ReadBase1Of(l.receivable);
  }

  lemma ReadCashOf(l: Ledger)
    requires l.Cash?
    ensures ReadLedger(LedgerElement(l)) == Some(NormalLedger(l))
  {
    ReadCashRun(l);
    ReadBaseOf(l.cashBase);
  }

  /** Reading a ledger's element gives back the ledger, texts cut as `<base>` and `<base1>` cut them. */
  lemma ReadLedgerOf(l: Ledger)
    ensures ReadLedger(LedgerElement(l)) == Some(NormalLedger(l))
  {
    match l
    case Payable(_, _, _) => ReadPayableOf(l);
    case Receivable(_, _, _) => ReadReceivableOf(l);
    case Cash(_, _, _, _) => ReadCashOf(l);
  }

  lemma {:induction false} ReadLedgersOf(ls: seq<Ledger>)
    ensures ReadLedgers(LedgerElements(ls)) == Some(NormalLedgers(ls))
  {
    if ls != [] {
      var es := LedgerElements(ls);
      assert es[..|es| - 1] == LedgerElements(ls[..|ls| - 1]);
      ReadLedgersOf(ls[..|ls| - 1]);
      ReadLedgerOf(ls[|ls| - 1]);
    }
  }

  /** What `get` gives for the required attributes of `<consolidate>`. */
  lemma ConsolidateRequiredGet(c: Consolidate)
    ensures var a := ConsolidateAttributes(c);
      && Get(a, Bare("consolidatedAmount")) == Some(c.consolidatedAmount)
      && Get(a, Bare("consolidatedDate")) == Some(c.consolidatedDate)
      && Get(a, Bare("consolidatedCurrencyCode")) == Some(c.consolidatedCurrencyCode)
  {
    var a1 := [(Bare("consolidatedAmount"), c.consolidatedAmount)];
    var a2 := a1 + [(Bare("consolidatedDate"), c.consolidatedDate)];
    var a3 := a2 + [(Bare("consolidatedCurrencyCode"), c.consolidatedCurrencyCode)];
    var a4 := a3 + OptionalAttribute(Bare("consolidatedInvoiceId"), c.consolidatedInvoiceId);
    var a5 := a4 + OptionalAttribute(Bare("consolidatedDeliveryDate"), c.consolidatedDeliveryDate);
    GetSet([], Bare("consolidatedAmount"), c.consolidatedAmount);
    assert [] + [(Bare("consolidatedAmount"), c.consolidatedAmount)] == a1;
    GetSet(a1, Bare("consolidatedDate"), c.consolidatedDate);
    GetSet(a2, Bare("consolidatedCurrencyCode"), c.consolidatedCurrencyCode);
    GetOptional(a3, Bare("consolidatedInvoiceId"), c.consolidatedInvoiceId);
    GetOptional(a4, Bare("consolidatedDeliveryDate"), c.consolidatedDeliveryDate);
    GetOptional(a5, Bare("consolidatedOrderId"), c.consolidatedOrderId);
  }

  /** What `get` gives for the optional attributes of `<consolidate>`. */
  lemma ConsolidateOptionalGet(c: Consolidate)
    ensures var a := ConsolidateAttributes(c);
      && Get(a, Bare("consolidatedInvoiceId")) == c.consolidatedInvoiceId
      && Get(a, Bare("consolidatedDeliveryDate")) == c.consolidatedDeliveryDate
      && Get(a, Bare("consolidatedOrderId")) == c.consolidatedOrderId
  {
    var a1 := [(Bare("consolidatedAmount"), c.consolidatedAmount)];
    var a2 := a1 + [(Bare("consolidatedDate"), c.consolidatedDate)];
    var a3 := a2 + [(Bare("consolidatedCurrencyCode"), c.consolidatedCurrencyCode)];
    var a4 := a3 + OptionalAttribute(Bare("consolidatedInvoiceId"), c.consolidatedInvoiceId);
    var a5 := a4 + OptionalAttribute(Bare("consolidatedDeliveryDate"), c.consolidatedDeliveryDate);
    GetSet([], Bare("consolidatedAmount"), c.consolidatedAmount);
    assert [] + [(Bare("consolidatedAmount"), c.consolidatedAmount)] == a1;
    GetSet(a1, Bare("consolidatedDate"), c.consolidatedDate);
    GetSet(a2, Bare("consolidatedCurrencyCode"), c.consolidatedCurrencyCode);
    GetOptional(a3, Bare("consolidatedInvoiceId"), c.consolidatedInvoiceId);
    GetOptional(a4, Bare("consolidatedDeliveryDate"), c.consolidatedDeliveryDate);
    GetOptional(a5, Bare("consolidatedOrderId"), c.consolidatedOrderId);
  }

  lemma ReadConsolidateOf(c: Consolidate)
    ensures ReadConsolidate(ConsolidateElement(c)) == Some(NormalConsolidate(c))
  {
    ConsolidateRequiredGet(c);
    ConsolidateOptionalGet(c);
    ReadLedgersOf(c.ledgers);
  }

  /** What `get` gives for each attribute of the root. */
  lemma LedgerImportAttributesGet(li: LedgerImport)
    ensures var a := LedgerImportAttributes(li);
      && Get(a, Name(Some(XsiNameSpace), "schemaLocation")) == Some(li.xsiSchemaLocation)
      && Get(a, Bare("version")) == Some(li.version)
      && Get(a, Bare("generator_info")) == Some(li.generatorInfo)
      && Get(a, Bare("xml_data")) == Some(li.xmlData)
      && Get(a, Bare("generating_system")) == li.generatingSystem
  {
    var a1 := [(Name(Some(XsiNameSpace), "schemaLocation"), li.xsiSchemaLocation)];
    var a2 := a1 + [(Bare("version"), li.version)];
    var a3 := a2 + [(Bare("generator_info"), li.generatorInfo)];
    var a4 := a3 + [(Bare("xml_data"), li.xmlData)];
    GetSet([], Name(Some(XsiNameSpace), "schemaLocation"), li.xsiSchemaLocation);
    assert [] + [(Name(Some(XsiNameSpace), "schemaLocation"), li.xsiSchemaLocation)] == a1;
    GetSet(a1, Bare("version"), li.version);
    GetSet(a2, Bare("generator_info"), li.generatorInfo);
    GetSet(a3, Bare("xml_data"), li.xmlData);
    GetOptional(a4, Bare("generating_system"), li.generatingSystem);
  }

  /** Reading the tree `LedgerImport.xml` builds gives back the record, texts cut as the builders cut them. */
  lemma ReadLedgerImportOf(li: LedgerImport)
    ensures ReadLedgerImport(LedgerImportElement(li)) == Some(NormalLedgerImport(li))
  {
    LedgerImportAttributesGet(li);
    var empty: seq<(Option<string>, string)> := [];
    GetSet(empty, None, li.xmlns);
    assert empty + [(None, li.xmlns)] == [(None, li.xmlns)];
    GetSet([(None, li.xmlns)], Some("xsi"), li.xmlnsXsi);
    assert [(None, li.xmlns)] + [(Some("xsi"), li.xmlnsXsi)] == LedgerImportElement(li).nsmap;
    ReadConsolidateOf(li.consolidate);
  }
}
