/** What `ProcessInvoiceAsync` and its batch loops promise, stated over the
    functions of `ProcessingService`: when the pipeline accepts a file, what
    it stores, that a duplicate upload never reaches the extractor, that a
    failure after extraction is kept as an auditable record, and that the
    file-hash index stays unique. */
module ProcessingProperties {
  import opened Results
  import opened Text
  import opened MoneyValue
  import LineItems
  import opened ValidationWarnings
  import opened ValidationErrors
  import opened Invoices
  import opened Repositories
  import opened Dtos
  import opened ProcessingValidation
  import opened ProcessingService
  import opened Seqs

  /** An extracted line item that `LineItem.Create` accepts once its unit
      price is a Money in the invoice currency. */
  predicate ItemAccepted(li: LineItemDto) {
    li.unitPrice >= 0.0 && !IsBlank(li.description) && li.quantity > 0.0
  }

  /** The line item stored for an accepted extracted item. */
  function StoredItem(li: LineItemDto, currency: string, invoiceId: nat): LineItems.LineItem {
    var price := Money(li.unitPrice, NormalizeCode(currency));
    LineItems.LineItem(li.lineNumber, Trim(li.description), li.quantity, Trim(li.unit),
                       price, Money(li.quantity * price.amount, price.currencyCode), invoiceId)
  }

  /** The stored items of accepted extracted items, in order. */
  function StoredItems(lis: seq<LineItemDto>, currency: string, invoiceId: nat): seq<LineItems.LineItem> {
    if lis == [] then []
    else StoredItems(lis[..|lis| - 1], currency, invoiceId) + [StoredItem(lis[|lis| - 1], currency, invoiceId)]
  }

  /** One stored item per extracted item, each at its own index. */
  lemma {:induction false} StoredItemsAt(lis: seq<LineItemDto>, currency: string, invoiceId: nat)
    ensures |StoredItems(lis, currency, invoiceId)| == |lis|
    ensures forall i :: 0 <= i < |lis| ==> StoredItems(lis, currency, invoiceId)[i] == StoredItem(lis[i], currency, invoiceId)
  {
    if lis != [] {
      var init := lis[..|lis| - 1];
      StoredItemsAt(init, currency, invoiceId);
      forall i | 0 <= i < |lis|
        ensures StoredItems(lis, currency, invoiceId)[i] == StoredItem(lis[i], currency, invoiceId)
      {
        if i < |init| {
          assert lis[i] == init[i];
        }
      }
    }
  }

  /** The unit price of an extracted item, as `new Money` builds it. */
  lemma PriceOf(li: LineItemDto, currency: string)
    requires !IsBlank(currency)
    ensures NewMoney(li.unitPrice, currency).Success? <==> li.unitPrice >= 0.0
    ensures li.unitPrice >= 0.0 ==> NewMoney(li.unitPrice, currency) == Success(Money(li.unitPrice, NormalizeCode(currency)))
  {
  }

  /** `LineItem.Create` on an accepted item with a valid price: the trimmed
      texts, the price as given and quantity times price as line total. */
  lemma ItemCreatedAt(li: LineItemDto, price: Money, invoiceId: nat)
    requires price.Valid() && ItemAccepted(li)
    ensures LineItems.Create(li.lineNumber, li.description, li.quantity, li.unit, price, invoiceId)
            == Success(LineItems.LineItem(li.lineNumber, Trim(li.description), li.quantity, Trim(li.unit), price,
                                          Money(li.quantity * price.amount, price.currencyCode), invoiceId))
  {
    var rc := LineItems.Create(li.lineNumber, li.description, li.quantity, li.unit, price, invoiceId);
    assert rc.Success?;
    var c := rc.value;
    assert c.lineTotal == Money(li.quantity * price.amount, price.currencyCode);
    assert c.description == Trim(li.description) && c.unit == Trim(li.unit);
    assert c.lineNumber == li.lineNumber && c.quantity == li.quantity && c.unitPrice == price && c.invoiceId == invoiceId;
    assert c == LineItems.LineItem(c.lineNumber, c.description, c.quantity, c.unit, c.unitPrice, c.lineTotal, c.invoiceId);
  }

  /** Priced in the invoice currency, that is the stored item. */
  lemma ItemCreated(li: LineItemDto, currency: string, invoiceId: nat)
    requires ItemAccepted(li) && Money(li.unitPrice, NormalizeCode(currency)).Valid()
    ensures LineItems.Create(li.lineNumber, li.description, li.quantity, li.unit,
                             Money(li.unitPrice, NormalizeCode(currency)), invoiceId)
            == Success(StoredItem(li, currency, invoiceId))
  {
    var price := Money(li.unitPrice, NormalizeCode(currency));
    ItemCreatedAt(li, price, invoiceId);
    assert StoredItem(li, currency, invoiceId)
           == LineItems.LineItem(li.lineNumber, Trim(li.description), li.quantity, Trim(li.unit), price,
                                 Money(li.quantity * price.amount, price.currencyCode), invoiceId);
  }

  /** An item with a valid price is refused exactly when it is not accepted. */
  lemma ItemRefused(li: LineItemDto, price: Money, invoiceId: nat)
    requires price.Valid() && price.amount == li.unitPrice
    ensures LineItems.Create(li.lineNumber, li.description, li.quantity, li.unit, price, invoiceId).Success?
            <==> ItemAccepted(li)
  {
  }

  /** An accepted item is appended as `StoredItem`; any other is refused,
      and never because of its currency. */
  lemma AddItemAccepted(r: InvoiceRecord, li: LineItemDto, currency: string)
    requires !IsBlank(currency) && r.totalAmount.currencyCode == NormalizeCode(currency)
    ensures AddItem(r, li, currency).Success? <==> ItemAccepted(li)
    ensures ItemAccepted(li) ==>
              AddItem(r, li, currency) == Success(r.(lineItems := r.lineItems + [StoredItem(li, currency, r.id)]))
  {
    PriceOf(li, currency);
    if li.unitPrice >= 0.0 {
      var price := NewMoney(li.unitPrice, currency).value;
      if ItemAccepted(li) {
        ItemCreated(li, currency, r.id);
      } else {
        ItemRefused(li, price, r.id);
      }
    }
  }

  /** Every extracted item is accepted. */
  predicate AllAccepted(lis: seq<LineItemDto>) {
    forall i :: 0 <= i < |lis| ==> ItemAccepted(lis[i])
  }

  lemma AllAcceptedSnoc(lis: seq<LineItemDto>)
    requires lis != []
    ensures AllAccepted(lis) <==> AllAccepted(lis[..|lis| - 1]) && ItemAccepted(lis[|lis| - 1])
  {
    var init := lis[..|lis| - 1];
    if AllAccepted(init) && ItemAccepted(lis[|lis| - 1]) {
      forall i | 0 <= i < |lis|
        ensures ItemAccepted(lis[i])
      {
        if i < |init| {
          assert lis[i] == init[i];
        }
      }
    }
  }

  /** The item loop succeeds exactly when every item is accepted, and then
      appends them all, in order, changing nothing else. */
  lemma {:induction false} AddItemsAccepted(r: InvoiceRecord, lis: seq<LineItemDto>, currency: string)
    requires !IsBlank(currency) && r.totalAmount.currencyCode == NormalizeCode(currency)
    ensures AddItems(r, lis, currency).Success? <==> AllAccepted(lis)
    ensures AddItems(r, lis, currency).Success? ==>
              AddItems(r, lis, currency).value == r.(lineItems := r.lineItems + StoredItems(lis, currency, r.id))
  {
    if lis != [] {
      var init := lis[..|lis| - 1];
      AddItemsAccepted(r, init, currency);
      AllAcceptedSnoc(lis);
      if AddItems(r, init, currency).Success? {
        AddItemsSnoc(r, lis, currency);
      }
    }
  }

  /** The step of `AddItemsAccepted` for the last item. */
  lemma AddItemsSnoc(r: InvoiceRecord, lis: seq<LineItemDto>, currency: string)
    requires lis != []
    requires !IsBlank(currency) && r.totalAmount.currencyCode == NormalizeCode(currency)
    requires AddItems(r, lis[..|lis| - 1], currency).Success?
    requires AddItems(r, lis[..|lis| - 1], currency).value
             == r.(lineItems := r.lineItems + StoredItems(lis[..|lis| - 1], currency, r.id))
    ensures AddItems(r, lis, currency).Success? <==> ItemAccepted(lis[|lis| - 1])
    ensures ItemAccepted(lis[|lis| - 1]) ==>
              AddItems(r, lis, currency).value == r.(lineItems := r.lineItems + StoredItems(lis, currency, r.id))
  {
    var init, last := lis[..|lis| - 1], lis[|lis| - 1];
    var prev := AddItems(r, init, currency).value;
    assert AddItems(r, lis, currency) == AddItem(prev, last, currency);
    AddItemAccepted(prev, last, currency);
    if ItemAccepted(last) {
      var done, item := StoredItems(init, currency, r.id), [StoredItem(last, currency, r.id)];
      assert StoredItems(lis, currency, r.id) == done + item;
      AppendAssociative(r.lineItems, done, item);
    }
  }

  /** The extracted header fields that let the invoice be created: the three
      amounts are valid Money in the extracted currency, and number and
      vendor are not blank. */
  predicate HeaderAccepted(dto: InvoiceDto) {
    && dto.totalAmount >= 0.0 && !IsBlank(dto.currency)
    && (dto.taxAmount.Some? ==> dto.taxAmount.value >= 0.0)
    && (dto.subtotal.Some? ==> dto.subtotal.value >= 0.0)
    && !IsBlank(dto.invoiceNumber) && !IsBlank(dto.vendorName)
  }

  lemma HeaderIff(dto: InvoiceDto, id: nat, fileName: string, hash: string, now: nat)
    ensures Header(dto, id, fileName, hash, now).Success? <==> HeaderAccepted(dto)
    ensures HeaderAccepted(dto) ==>
              var r := Header(dto, id, fileName, hash, now).value;
              && r.id == id && r.fileHash == hash && r.originalFileName == fileName
              && r.invoiceNumber == Trim(dto.invoiceNumber) && r.vendorName == Trim(dto.vendorName)
              && r.invoiceDate == dto.invoiceDate
              && r.totalAmount == Money(dto.totalAmount, NormalizeCode(dto.currency))
              && r.lineItems == [] && r.validationWarnings == [] && r.validationErrors == []
  {
  }

  /** The assembled invoice exists exactly when the header and every line
      item are accepted. Its status is Failed exactly when the rule set
      reported errors, which it carries; warnings never change it. */
  lemma PipelineIff(invoices: seq<InvoiceRecord>, dto: InvoiceDto, given: Fresh, fileName: string,
                    hash: string, path: string)
    ensures Pipeline(invoices, dto, given, fileName, hash, path).Success?
            <==> HeaderAccepted(dto) && AllAccepted(dto.lineItems)
    ensures Pipeline(invoices, dto, given, fileName, hash, path).Success? ==>
              var r := Pipeline(invoices, dto, given, fileName, hash, path).value;
              && r.id == given.id && r.fileHash == hash && r.filePath == path && r.originalFileName == fileName
              && r.processedAt == given.now && r.processingError == None
              && r.invoiceNumber == Trim(dto.invoiceNumber) && r.vendorName == Trim(dto.vendorName)
              && r.totalAmount == Money(dto.totalAmount, NormalizeCode(dto.currency))
              && r.lineItems == StoredItems(dto.lineItems, dto.currency, given.id)
              && r.validationErrors == DomainErrors(Validation(dto).0)
              && (r.status == Failed <==> Validation(dto).0 != [])
              && (r.status == Completed <==> Validation(dto).0 == [])
  {
    HeaderIff(dto, given.id, fileName, hash, given.now);
    var header := Header(dto, given.id, fileName, hash, given.now);
    if header.Success? {
      var results := Validation(dto);
      var validated := WithWarnings(WithErrors(header.value.(filePath := path, status := Completed, processedAt := given.now),
                                               results.0), results.1);
      NormalizedCodeValid(dto.currency);
      AddItemsAccepted(validated, dto.lineItems, dto.currency);
    }
  }

  function HasWarningCode(ws: seq<ValidationWarning>, code: string): bool {
    exists i :: 0 <= i < |ws| && ws[i].code == code
  }

  /** The rule set itself never warns DUPLICATE_POSSIBLE. */
  lemma RuleWarningsNotDuplicate(dto: InvoiceDto)
    ensures !HasWarningCode(DomainWarnings(Validation(dto).1), "DUPLICATE_POSSIBLE")
  {
  }

  /** `FlagSimilar` appends the DUPLICATE_POSSIBLE warning exactly when a
      similar invoice is stored, and changes nothing else. */
  lemma FlagSimilarIff(w: InvoiceRecord, invoices: seq<InvoiceRecord>)
    requires !HasWarningCode(w.validationWarnings, "DUPLICATE_POSSIBLE")
    ensures var r := FlagSimilar(w, invoices);
            var similar := FindSimilar(invoices, w.invoiceNumber, w.vendorName, w.invoiceDate);
            && r == w.(validationWarnings := r.validationWarnings)
            && (HasWarningCode(r.validationWarnings, "DUPLICATE_POSSIBLE") <==> similar != [])
            && (similar != [] ==>
                  r.validationWarnings == w.validationWarnings
                                          + [ValidationWarning("DUPLICATE_POSSIBLE", SimilarMessage(w.invoiceNumber, w.vendorName))])
            && (similar == [] ==> r.validationWarnings == w.validationWarnings)
  {
    var r := FlagSimilar(w, invoices);
    if FindSimilar(invoices, w.invoiceNumber, w.vendorName, w.invoiceDate) != [] {
      var ws := r.validationWarnings;
      assert ws[|ws| - 1].code == "DUPLICATE_POSSIBLE";
    }
  }

  /** A stored invoice carries the DUPLICATE_POSSIBLE warning exactly when
      the repository already held an invoice with its number and vendor on
      its calendar day, and then as its last warning, once. */
  lemma DuplicatePossibleIff(invoices: seq<InvoiceRecord>, dto: InvoiceDto, given: Fresh, fileName: string,
                             hash: string, path: string)
    requires Pipeline(invoices, dto, given, fileName, hash, path).Success?
    ensures var r := Pipeline(invoices, dto, given, fileName, hash, path).value;
            var similar := FindSimilar(invoices, r.invoiceNumber, r.vendorName, r.invoiceDate);
            && (HasWarningCode(r.validationWarnings, "DUPLICATE_POSSIBLE") <==> similar != [])
            && (similar != [] ==>
                  r.validationWarnings == DomainWarnings(Validation(dto).1)
                                          + [ValidationWarning("DUPLICATE_POSSIBLE", SimilarMessage(r.invoiceNumber, r.vendorName))])
            && (similar == [] ==> r.validationWarnings == DomainWarnings(Validation(dto).1))
  {
    PipelineIff(invoices, dto, given, fileName, hash, path);
    RuleWarningsNotDuplicate(dto);
    var header := Header(dto, given.id, fileName, hash, given.now);
    var results := Validation(dto);
    var validated := WithWarnings(WithErrors(header.value.(filePath := path, status := Completed, processedAt := given.now),
                                             results.0), results.1);
    NormalizedCodeValid(dto.currency);
    AddItemsAccepted(validated, dto.lineItems, dto.currency);
    var w := AddItems(validated, dto.lineItems, dto.currency).value;
    assert w.validationWarnings == DomainWarnings(results.1);
    FlagSimilarIff(w, invoices);
  }
}
