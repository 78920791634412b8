/** Money (BillingExtractor.Domain/ValueObjects/Money.cs): an immutable,
    non-negative amount with a normalised currency code. The C# decimal is a
    real here; a thrown exception is a Failure carrying its message. */
module MoneyValue {
  import opened Results
  import opened Text

  datatype Money = Money(amount: real, currencyCode: string) {

    /** What the constructor guarantees of every Money it builds: a
        non-negative amount and a trimmed, upper-case, non-empty code. */
    predicate Valid() {
      amount >= 0.0 && currencyCode != [] && Trimmed(currencyCode) && ToUpper(currencyCode) == currencyCode
    }
  }

  /** Math.Abs on decimal. */
  function Abs(x: real): (r: real)
    ensures r >= 0.0 && (r == x || r == -x)
  {
    if x < 0.0 then -x else x
  }

  /** The rounding tolerance of the amount checks, 0.01m. */
  const Tolerance: real := 0.01

  /** The currency code as the constructor stores it. */
  function NormalizeCode(code: string): string {
    ToUpper(Trim(code))
  }

  lemma NormalizedCodeValid(code: string)
    requires !IsBlank(code)
    ensures NormalizeCode(code) != [] && Trimmed(NormalizeCode(code))
    ensures ToUpper(NormalizeCode(code)) == NormalizeCode(code)
  {
    var t := Trim(code);
    TrimNotBlank(code);
    UpperTrimmed(t);
    ToUpperIdempotent(t);
  }

  /** A code that is already normalised comes out of the constructor unchanged. */
  lemma NormalizeValidCode(m: Money)
    ensures m.Valid() ==> NormalizeCode(m.currencyCode) == m.currencyCode
  {
    if m.Valid() {
      TrimOfTrimmed(m.currencyCode);
    }
  }

  /** `new Money(amount, currencyCode)`. */
  function NewMoney(amount: real, currencyCode: string): (r: Result<Money>)
    ensures amount < 0.0 ==> r == Failure(ArgumentMessage("Amount cannot be negative", "amount"))
    ensures amount >= 0.0 && IsBlank(currencyCode) ==> r == Failure(ArgumentMessage("Currency code is required", "currencyCode"))
    ensures r.Success? <==> amount >= 0.0 && !IsBlank(currencyCode)
    ensures r.Success? ==> r.value.Valid() && r.value.amount == amount && r.value.currencyCode == NormalizeCode(currencyCode)
  {
    if amount < 0.0 then Failure(ArgumentMessage("Amount cannot be negative", "amount"))
    else if IsBlank(currencyCode) then Failure(ArgumentMessage("Currency code is required", "currencyCode"))
    else
      NormalizedCodeValid(currencyCode);
      Success(Money(amount, NormalizeCode(currencyCode)))
  }

  /** Rebuilding a Money from a valid one's code with a non-negative amount
      succeeds and keeps the code. */
  lemma NewMoneyWithValidCode(amount: real, m: Money)
    requires amount >= 0.0 && m.Valid()
    ensures NewMoney(amount, m.currencyCode) == Success(Money(amount, m.currencyCode))
  {
    NormalizeValidCode(m);
  }

  /** `left + right`: currency-checked, and the sum of two valid amounts never
      trips the constructor's negative check. */
  function Add(left: Money, right: Money): (r: Result<Money>)
    ensures left.currencyCode != right.currencyCode ==> r == Failure("Cannot add money amounts with different currencies")
    ensures left.currencyCode == right.currencyCode && left.Valid() && right.Valid() ==>
              r == Success(Money(left.amount + right.amount, left.currencyCode)) && r.value.Valid()
  {
    if left.currencyCode != right.currencyCode then Failure("Cannot add money amounts with different currencies")
    else
      NormalizeValidCode(left);
      NewMoney(left.amount + right.amount, left.currencyCode)
  }

  /** `left - right`: currency-checked, and refusing a negative result. */
  function Subtract(left: Money, right: Money): (r: Result<Money>)
    ensures left.currencyCode != right.currencyCode ==> r == Failure("Cannot subtract money amounts with different currencies")
    ensures left.currencyCode == right.currencyCode && right.amount > left.amount ==> r == Failure("Result cannot be negative")
    ensures left.currencyCode == right.currencyCode && right.amount <= left.amount && left.Valid() ==>
              r == Success(Money(left.amount - right.amount, left.currencyCode)) && r.value.Valid()
  {
    if left.currencyCode != right.currencyCode then Failure("Cannot subtract money amounts with different currencies")
    else
      var resultAmount := left.amount - right.amount;
      if resultAmount < 0.0 then Failure("Result cannot be negative")
      else
        NormalizeValidCode(left);
        NewMoney(resultAmount, left.currencyCode)
  }

  /** Whenever `x - y` succeeds, adding `y` back gives `x`. */
  lemma SubtractThenAdd(x: Money, y: Money)
    requires x.Valid() && y.Valid()
    requires Subtract(x, y).Success?
    ensures Add(Subtract(x, y).value, y) == Success(x)
  {
    var d := Subtract(x, y).value;
    assert d == Money(x.amount - y.amount, x.currencyCode);
  }

  /** Whenever `x + y` succeeds, subtracting `y` gives `x` back. */
  lemma AddThenSubtract(x: Money, y: Money)
    requires x.Valid() && y.Valid()
    requires Add(x, y).Success?
    ensures Subtract(Add(x, y).value, y) == Success(x)
  {
  }

  /** Money.Equals for two Money values. */
  predicate Equals(left: Money, right: Money) {
    left.amount == right.amount && left.currencyCode == right.currencyCode
  }

  /** `operator ==` on possibly-null Money references. */
  predicate EqualsOp(left: Option<Money>, right: Option<Money>) {
    match (left, right)
    case (None, None) => true
    case (Some(l), Some(r)) => Equals(l, r)
    case _ => false
  }

  /** `operator !=`. */
  predicate NotEqualsOp(left: Option<Money>, right: Option<Money>) {
    !EqualsOp(left, right)
  }

  /** `==` holds exactly when both are null or both amount and code agree, so
      it is value equality; `!=` is its negation. */
  lemma EqualityIsValueEquality(left: Option<Money>, right: Option<Money>)
    ensures EqualsOp(left, right) <==> left == right
    ensures NotEqualsOp(left, right) <==> left != right
    ensures EqualsOp(left, right) == EqualsOp(right, left)
  {
  }

  lemma PaddedCodeExample()
    ensures !IsBlank(" usd ") && NormalizeCode(" usd ") == "USD"
  {
    assert !IsWhiteSpace(" usd "[1]);
    assert Trim(" usd ") == "usd" by {
      assert TrimStart(" usd ") == "usd ";
      assert TrimEnd("usd ") == "usd";
    }
    assert ToUpper("usd") == "USD";
  }

  /** A lower-case, padded code is stored trimmed and upper-cased. */
  lemma NormalizeExample()
    ensures NewMoney(100.50, " usd ") == Success(Money(100.50, "USD"))
  {
    PaddedCodeExample();
  }

  /** 100.50 USD - 25.25 USD = 75.25 USD; the reverse is refused; USD and EUR
      cannot be added. */
  lemma ArithmeticExamples()
    ensures Subtract(Money(100.50, "USD"), Money(25.25, "USD")) == Success(Money(75.25, "USD"))
    ensures Subtract(Money(25.25, "USD"), Money(100.50, "USD")) == Failure("Result cannot be negative")
    ensures Add(Money(100.50, "USD"), Money(50.25, "EUR")).Failure?
  {
    assert ToUpper("USD") == "USD";
    assert Money(100.50, "USD").Valid();
  }
}
