/** `validate_withdrawal`: the ordered chain of checks on a requested amount. */
module Withdrawal {
  import opened Wrappers

  /** The amount field after `float(...)`: either it did not parse (a
      `ValueError`) or it is a number. Float rounding is not modelled. */
  datatype Amount = NotNumber | Number(value: real)

  /** Why a withdrawal was refused, one case per message of the source. */
  datatype WithdrawError =
    | InvalidNumber
    | NotPositive
    | NotWhole
    | NotMultipleOfTen
    | InsufficientFunds(balance: int)  // the message shows the current balance

  // Each rule on its own, independent of the order in which they are tried.

  predicate IsNumber(a: Amount) {
    a.Number?
  }

  predicate IsPositive(a: Amount) {
    a.Number? && a.value > 0.0
  }

  predicate IsWhole(a: Amount) {
    a.Number? && a.value == a.value.Floor as real
  }

  predicate IsMultipleOfTen(a: Amount) {
    a.Number? && a.value.Floor % 10 == 0
  }

  /** The amount in pounds does not exceed a balance given in pence. */
  predicate IsCovered(a: Amount, balance: int) {
    a.Number? && a.value.Floor * 100 <= balance
  }

  /** Checks the amount against the balance (pence). The first rule that fails,
      in the order number, positive, whole, multiple of 10, covered, decides the
      error; when all pass the result is the amount in whole pounds. */
  function ValidateWithdrawal(a: Amount, balance: int): (r: Result<int, WithdrawError>)
    ensures r == Failure(InvalidNumber) <==> !IsNumber(a)
    ensures r == Failure(NotPositive) <==> IsNumber(a) && !IsPositive(a)
    ensures r == Failure(NotWhole) <==> IsPositive(a) && !IsWhole(a)
    ensures r == Failure(NotMultipleOfTen) <==> IsPositive(a) && IsWhole(a) && !IsMultipleOfTen(a)
    ensures r == Failure(InsufficientFunds(balance)) <==>
              IsPositive(a) && IsWhole(a) && IsMultipleOfTen(a) && !IsCovered(a, balance)
    ensures r.Success? <==> IsPositive(a) && IsWhole(a) && IsMultipleOfTen(a) && IsCovered(a, balance)
    ensures r.Success? ==>
              && a == Number(r.value as real)
              && r.value > 0 && r.value % 10 == 0 && r.value * 100 <= balance
  {
    match a
    case NotNumber => Failure(InvalidNumber)
    case Number(x) =>
      if x <= 0.0 then Failure(NotPositive)
      else if x != x.Floor as real then Failure(NotWhole)
      else
        var n := x.Floor;
        if n % 10 != 0 then Failure(NotMultipleOfTen)
        else if n * 100 > balance then Failure(InsufficientFunds(balance))
        else Success(n)
  }
}
