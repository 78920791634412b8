/** LineItem (BillingExtractor.Domain/Entities/LineItem.cs): one billed entry
    of an invoice, built once by a validating factory and never changed. */
module LineItems {
  import opened Results
  import opened Text
  import opened MoneyValue

  datatype LineItem = LineItem(
    lineNumber: int,
    description: string,
    quantity: real,
    unit: string,
    unitPrice: Money,
    lineTotal: Money,
    invoiceId: nat)

  /** `LineItem.Create`: rejects a blank description and a quantity that is
      not positive, and computes the line total as quantity times unit price,
      in the unit price's currency. */
  function Create(lineNumber: int, description: string, quantity: real, unit: string,
                  unitPrice: Money, invoiceId: nat): (r: Result<LineItem>)
    ensures IsBlank(description) ==> r == Failure(ArgumentMessage("Description is required", "description"))
    ensures !IsBlank(description) && quantity <= 0.0 ==>
              r == Failure(ArgumentMessage("Quantity must be greater than 0", "quantity"))
    ensures unitPrice.Valid() ==> (r.Success? <==> !IsBlank(description) && quantity > 0.0)
    ensures r.Success? && unitPrice.Valid() ==>
              r.value.lineTotal == Money(quantity * unitPrice.amount, unitPrice.currencyCode)
    ensures r.Success? ==>
              && r.value.lineTotal.amount == quantity * unitPrice.amount
              && r.value.lineTotal.Valid()
              && r.value.description == Trim(description) && !IsBlank(r.value.description)
              && r.value.unit == Trim(unit)
              && r.value.lineNumber == lineNumber && r.value.quantity == quantity
              && r.value.unitPrice == unitPrice && r.value.invoiceId == invoiceId
  {
    if IsBlank(description) then Failure(ArgumentMessage("Description is required", "description"))
    else if quantity <= 0.0 then Failure(ArgumentMessage("Quantity must be greater than 0", "quantity"))
    else if unitPrice.amount < 0.0 then Failure(ArgumentMessage("Unit price cannot be negative", "unitPrice"))
    else
      LineTotalOf(quantity, unitPrice);
      var lineTotal := NewMoney(quantity * unitPrice.amount, unitPrice.currencyCode);
      if lineTotal.Failure? then Failure(lineTotal.error)
      else
        TrimNotBlank(description);
        Success(LineItem(lineNumber, Trim(description), quantity, Trim(unit), unitPrice, lineTotal.value, invoiceId))
  }

  /** The line total is never negative, and keeps the unit price's code. */
  lemma LineTotalOf(quantity: real, unitPrice: Money)
    requires quantity > 0.0 && unitPrice.amount >= 0.0
    ensures quantity * unitPrice.amount >= 0.0
    ensures unitPrice.Valid() ==>
              NewMoney(quantity * unitPrice.amount, unitPrice.currencyCode)
              == Success(Money(quantity * unitPrice.amount, unitPrice.currencyCode))
  {
    if unitPrice.Valid() {
      NewMoneyWithValidCode(quantity * unitPrice.amount, unitPrice);
    }
  }

  lemma TestItemText()
    ensures !IsBlank("Test Item") && Trim("Test Item") == "Test Item"
  {
    assert !IsWhiteSpace("Test Item"[0]);
    assert Trimmed("Test Item");
    TrimOfTrimmed("Test Item");
  }

  lemma UnitText()
    ensures Trim("EA") == "EA" && Trim("") == ""
  {
    assert Trimmed("EA");
    TrimOfTrimmed("EA");
    TrimOfTrimmed("");
  }

  lemma UsdValid(amount: real)
    requires amount >= 0.0
    ensures Money(amount, "USD").Valid()
  {
    assert ToUpper("USD") == "USD";
  }

  lemma ExampleInputs()
    ensures !IsBlank("Test Item") && Trim("Test Item") == "Test Item"
    ensures Trim("EA") == "EA" && Trim("") == ""
    ensures Money(15.75, "USD").Valid() && Money(10.50, "USD").Valid()
  {
    TestItemText();
    UnitText();
    UsdValid(15.75);
    UsdValid(10.50);
  }

  /** 3 x 15.75 USD = 47.25 USD, with the description and unit kept as given. */
  lemma LineTotalExample()
    ensures Create(1, "Test Item", 3.0, "EA", Money(15.75, "USD"), 7)
            == Success(LineItem(1, "Test Item", 3.0, "EA", Money(15.75, "USD"), Money(47.25, "USD"), 7))
  {
    ExampleInputs();
  }

  /** An empty unit stays empty. */
  lemma EmptyUnitExample()
    ensures Create(1, "Test Item", 5.0, "", Money(10.50, "USD"), 7).Success?
    ensures Create(1, "Test Item", 5.0, "", Money(10.50, "USD"), 7).value.unit == ""
  {
    ExampleInputs();
  }
}
