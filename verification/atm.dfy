/** The application as it runs: the session dictionary's keys are fields that the
    route handlers update in place, and the ledger is a sequence that only
    `AddTransaction` appends to. Each handler is proved to do what the matching
    function of `Routes` describes. */
module AtmMachine {
  import opened Wrappers
  import opened Format
  import opened Ledger
  import opened Withdrawal
  import opened SessionState
  import opened Routes

  class Atm {
    var pin: Option<string>
    var balance: Option<int>
    var loggedIn: Option<bool>
    var isAdmin: Option<bool>
    var pinChangeStep: Option<int>
    var newPin: Option<string>
    var ledger: seq<Transaction>

    function CurrentSession(): Session
      reads this
    {
      Session(pin, balance, loggedIn, isAdmin, pinChangeStep, newPin)
    }

    function Snapshot(): State
      reads this
    {
      State(CurrentSession(), ledger)
    }

    ghost predicate Valid()
      reads this
    {
      ValidState(Snapshot())
    }

    /** A new client: no session keys yet, and the ledger as stored. */
    constructor (stored: seq<Transaction>)
      ensures Snapshot() == State(Empty, stored)
      ensures ValidLedger(stored) ==> Valid()
    {
      pin, balance, loggedIn, isAdmin, pinChangeStep, newPin := None, None, None, None, None, None;
      ledger := stored;
    }

    /** `initialize_session`: assigns only the keys that are absent. */
    method InitializeSession()
      modifies this
      ensures CurrentSession() == Initialize(old(CurrentSession()))
      ensures ledger == old(ledger)
      ensures old(Valid()) ==> Valid()
    {
      if pin.None? { pin := Some(DEFAULT_PIN); }
      if balance.None? { balance := Some(STARTING_BALANCE); }
      if loggedIn.None? { loggedIn := Some(false); }
      if isAdmin.None? { isAdmin := Some(false); }
      if pinChangeStep.None? { pinChangeStep := Some(0); }
    }

    /** `add_transaction`: builds the record and appends it to the ledger. */
    method AddTransaction(amount: int, balanceAfter: int, timestamp: string) returns (t: Transaction)
      modifies this`ledger
      ensures t == NewTransaction(amount, balanceAfter, timestamp)
      ensures ledger == old(ledger) + [t]
    {
      t := Transaction(timestamp, WITHDRAWAL, amount, balanceAfter,
                       FormatLine(timestamp, WITHDRAWAL, amount, balanceAfter));
      ledger := ledger + [t];
    }

    /** `api_login` */
    method Login(attempt: string) returns (r: LoginReply)
      modifies this
      ensures (Snapshot(), r) == Routes.Login(old(Snapshot()), attempt)
      ensures ledger == old(ledger)
      ensures r.CustomerWelcome? ==> loggedIn == Some(true) && isAdmin == Some(false)
      ensures r.AdminWelcome? ==> loggedIn == Some(true) && isAdmin == Some(true)
      ensures r.LoginRejected? && IsInitialized(old(CurrentSession())) ==> Snapshot() == old(Snapshot())
      ensures old(Valid()) ==> Valid()
    {
      InitializeSession();
      if attempt == ADMIN_PASSWORD {
        loggedIn := Some(true);
        isAdmin := Some(true);
        r := AdminWelcome;
      } else if Some(attempt) == pin {
        loggedIn := Some(true);
        isAdmin := Some(false);
        r := CustomerWelcome(|ledger|, balance.value);
      } else {
        r := LoginRejected;
      }
    }

    /** `api_withdraw` */
    method Withdraw(amount: Amount, timestamp: string) returns (r: Reply<WithdrawReply>)
      modifies this
      ensures (Snapshot(), r) == Routes.Withdraw(old(Snapshot()), amount, timestamp)
      ensures r.Ok? && r.body.WithdrawDone? ==>
                && balance == Some(r.body.balance)
                && ledger == old(ledger) + [r.body.record]
                && r.body.record.balanceAfter == r.body.balance >= 0
                && CurrentSession() == old(CurrentSession()).(balance := balance)
      ensures !(r.Ok? && r.body.WithdrawDone?) ==> unchanged(this)
      ensures old(Valid()) ==> Valid()
    {
      if loggedIn != Some(true) || isAdmin == Some(true) {
        return Unauthorized;
      }
      if balance.None? {
        return ServerError;
      }
      var checked := ValidateWithdrawal(amount, balance.value);
      if checked.Failure? {
        return Ok(WithdrawRejected(checked.error));
      }
      var n := checked.value;
      balance := Some(balance.value - 100 * n);
      var t := AddTransaction(n, balance.value, timestamp);
      r := Ok(WithdrawDone(balance.value, t));
    }

    /** `api_change_pin` */
    method ChangePin(input: string) returns (r: Reply<PinReply>)
      modifies this
      ensures (CurrentSession(), r) == Routes.ChangePin(old(CurrentSession()), input)
      ensures ledger == old(ledger) && balance == old(balance)
      ensures r.Ok? && r.body.PinChanged? ==>
                pin == Some(input) == old(newPin) && pinChangeStep == Some(0) && newPin.None?
      ensures !(r.Ok? && r.body.PinChanged?) ==> pin == old(pin)
      ensures old(Valid()) ==> Valid()
    {
      if loggedIn != Some(true) || isAdmin == Some(true) {
        return Unauthorized;
      }
      var step := pinChangeStep.GetOr(0);
      if step == 0 {
        if pin.None? {
          return ServerError;
        }
        if input == pin.value {
          pinChangeStep := Some(1);
          r := Ok(PinStepDone(1));
        } else {
          r := Ok(PinRejected(IncorrectCurrentPin));
        }
      } else if step == 1 {
        if |input| == 4 && forall i :: 0 <= i < |input| ==> IsDigit(input[i]) {
          newPin := Some(input);
          pinChangeStep := Some(2);
          r := Ok(PinStepDone(2));
        } else {
          r := Ok(PinRejected(NotFourDigits));
        }
      } else if step == 2 {
        if newPin == Some(input) {
          pin := newPin;
          pinChangeStep := Some(0);
          newPin := None;
          r := Ok(PinChanged);
        } else {
          pinChangeStep := Some(1);
          r := Ok(PinRejected(Mismatch));
        }
      } else {
        r := ServerError;
      }
    }

    /** `api_transactions`: reads the ledger, changes nothing. */
    method Transactions() returns (r: Reply<History>)
      ensures r == Routes.Transactions(Snapshot())
      ensures r.Ok? <==> loggedIn == Some(true)
      ensures r.Ok? ==> r.body.count == |ledger| && r.body.lines == Lines(ledger)
    {
      if loggedIn != Some(true) {
        return Unauthorized;
      }
      var lines := seq(|ledger|, i requires 0 <= i < |ledger| reads this => ledger[i].formatted);
      assert lines == Lines(ledger);
      r := Ok(History(lines, |ledger|));
    }

    /** `api_logout`: removes every session key; the ledger stays. */
    method Logout()
      modifies this
      ensures CurrentSession() == Empty
      ensures ledger == old(ledger)
      ensures old(Valid()) ==> Valid()
    {
      pin, balance, loggedIn, isAdmin, pinChangeStep, newPin := None, None, None, None, None, None;
    }

    /** `api_reset_pin_change`: no authorisation check. */
    method ResetPinChange()
      modifies this
      ensures CurrentSession() == old(CurrentSession()).(pinChangeStep := Some(0), newPin := None)
      ensures ledger == old(ledger)
      ensures old(Valid()) ==> Valid()
    {
      pinChangeStep := Some(0);
      newPin := None;
    }
  }
}
