/** Properties of whole request sequences from one client: the invariant every
    route keeps, the append-only ledger, the balance accounting and where a new
    PIN can come from. */
module Traces {
  import opened Wrappers
  import opened Ledger
  import opened Withdrawal
  import opened SessionState
  import opened Routes

  predicate NoLogout(reqs: seq<Request>) {
    forall i :: 0 <= i < |reqs| ==> !reqs[i].LogoutReq?
  }

  /** Every route keeps the session and ledger invariant. */
  lemma StepKeepsValid(st: State, req: Request)
    requires ValidState(st)
    ensures ValidState(Step(st, req))
  {
  }

  /** Any sequence of requests keeps the session and ledger invariant. */
  lemma {:induction false} RunKeepsValid(st: State, reqs: seq<Request>)
    requires ValidState(st)
    ensures ValidState(Run(st, reqs))
    decreases |reqs|
  {
    if reqs != [] {
      StepKeepsValid(st, reqs[0]);
      RunKeepsValid(Step(st, reqs[0]), reqs[1..]);
    }
  }

  /** The ledger only grows at its end, and only by withdrawal records. */
  lemma {:induction false} RunExtendsLedger(st: State, reqs: seq<Request>)
    ensures st.ledger <= Run(st, reqs).ledger
    ensures ValidLedger(Run(st, reqs).ledger[|st.ledger|..])
    ensures ValidLedger(st.ledger) ==> ValidLedger(Run(st, reqs).ledger)
    decreases |reqs|
  {
    if reqs != [] {
      var next := Step(st, reqs[0]);
      assert st.ledger <= next.ledger;
      assert ValidLedger(next.ledger[|st.ledger|..]);
      RunExtendsLedger(next, reqs[1..]);
      var last := Run(st, reqs).ledger;
      assert last[|st.ledger|..] == next.ledger[|st.ledger|..] + last[|next.ledger|..];
    }
  }

  /** Within a session that is not logged out, and with no other client writing
      to the ledger, the balance plus everything the ledger records as withdrawn
      stays constant (pounds are 100 pence). */
  lemma {:induction false} RunConservesMoney(st: State, reqs: seq<Request>)
    requires st.session.balance.Some?
    requires NoLogout(reqs)
    ensures Run(st, reqs).session.balance.Some?
    ensures Run(st, reqs).session.balance.value + 100 * Withdrawn(Run(st, reqs).ledger)
            == st.session.balance.value + 100 * Withdrawn(st.ledger)
    decreases |reqs|
  {
    if reqs != [] {
      var next := Step(st, reqs[0]);
      if reqs[0].WithdrawReq? {
        var res := Withdraw(st, reqs[0].amount, reqs[0].timestamp);
        if res.1.Ok? && res.1.body.WithdrawDone? {
          WithdrawnAppend(st.ledger, res.1.body.record);
        }
      }
      assert next.session.balance.Some?;
      assert next.session.balance.value + 100 * Withdrawn(next.ledger)
             == st.session.balance.value + 100 * Withdrawn(st.ledger);
      RunConservesMoney(next, reqs[1..]);
    }
  }

  /** One request changes the stored PIN only by logging out, by filling in the
      default PIN, or by a step-2 confirmation equal to the pending new PIN. */
  lemma PinWriters(st: State, req: Request)
    requires Step(st, req).session.pin != st.session.pin
    ensures || req.LogoutReq?
            || (st.session.pin.None? && Step(st, req).session.pin == Some(DEFAULT_PIN))
            || (req.ChangePinReq? && st.session.pinChangeStep == Some(2) && st.session.newPin == Some(req.pin)
                && Step(st, req).session.pin == Some(req.pin))
  {
  }

  /** Without a logout, the PIN at the end of a run is the one at the start or
      one that some request of the run confirmed. */
  lemma {:induction false} RunPinProvenance(st: State, reqs: seq<Request>)
    requires st.session.pin.Some?
    requires NoLogout(reqs)
    ensures Run(st, reqs).session.pin.Some?
    ensures || Run(st, reqs).session.pin == st.session.pin
            || exists i :: 0 <= i < |reqs| && reqs[i] == ChangePinReq(Run(st, reqs).session.pin.value)
    decreases |reqs|
  {
    if reqs != [] {
      var next := Step(st, reqs[0]);
      if next.session.pin != st.session.pin {
        PinWriters(st, reqs[0]);
      }
      RunPinProvenance(next, reqs[1..]);
      var last := Run(st, reqs).session.pin;
      if last != next.session.pin {
        var j :| 0 <= j < |reqs[1..]| && reqs[1..][j] == ChangePinReq(last.value);
        assert reqs[j + 1] == ChangePinReq(last.value);
      } else if last != st.session.pin {
        assert reqs[0] == ChangePinReq(last.value);
      }
    }
  }

  /** In a session that satisfies the invariant, neither customer route can fail
      with an uncaught exception. */
  lemma ValidNeverServerError(st: State, amount: Amount, timestamp: string, input: string)
    requires Valid(st.session)
    ensures Withdraw(st, amount, timestamp).1 != ServerError
    ensures ChangePin(st.session, input).1 != ServerError
  {
  }

  /** Because the admin password is tried first, a customer whose PIN is the
      admin password can never log in as a customer. */
  lemma AdminPasswordShadowsPin(st: State, attempt: string)
    requires Initialize(st.session).pin == Some(ADMIN_PASSWORD)
    ensures !Login(st, attempt).1.CustomerWelcome?
    ensures attempt == ADMIN_PASSWORD ==> Login(st, attempt).1 == AdminWelcome
  {
  }

  /** An admin session can neither withdraw nor change the PIN, and trying
      changes nothing. */
  lemma AdminIsReadOnly(st: State, amount: Amount, timestamp: string, input: string)
    requires st.session.isAdmin == Some(true)
    ensures Withdraw(st, amount, timestamp) == (st, Unauthorized)
    ensures ChangePin(st.session, input) == (st.session, Unauthorized)
  {
  }

  /** The history reply does not depend on whether the session is an admin one. */
  lemma HistoryIgnoresRole(st: State, admin: Option<bool>)
    ensures Transactions(st.(session := st.session.(isAdmin := admin))) == Transactions(st)
  {
  }

  /** A full PIN change in one session: after 1234, 5678, 5678 the flow is back at
      step 0 with no pending PIN, the old PIN is refused and the new one logs in. */
  lemma PinChangeScenario(ledger: seq<Transaction>)
    ensures var st := Run(State(Empty, ledger), [LoginReq("1234"), ChangePinReq("1234"), ChangePinReq("5678"), ChangePinReq("5678")]);
            && st.session.pin == Some("5678")
            && st.session.pinChangeStep == Some(0)
            && st.session.newPin.None?
            && st.ledger == ledger
            && Login(st, "1234").1 == LoginRejected
            && Login(st, "5678").1.CustomerWelcome?
  {
  }

  /** A new PIN that is three digits long is refused and the flow stays at step 1. */
  lemma ShortPinScenario(s: Session)
    requires IsCustomer(s) && s.pinChangeStep == Some(1)
    ensures ChangePin(s, "567") == (s, Ok(PinRejected(NotFourDigits)))
  {
  }

  /** Logging out removes the changed PIN and the balance with the rest of the
      session, so the next login initializes the default PIN and the starting
      balance again, while the ledger keeps its records. */
  lemma LogoutForgetsPin(st: State)
    ensures Login(Step(st, LogoutReq), DEFAULT_PIN).1.CustomerWelcome?
    ensures forall attempt :: Login(Step(st, LogoutReq), attempt).0.session.balance == Some(STARTING_BALANCE)
    ensures Step(st, LogoutReq).ledger == st.ledger
  {
  }

  /** Withdrawing 50 pounds from a customer session with 120 pounds leaves 70
      pounds and one more ledger record. */
  lemma WithdrawScenario(s: Session, ledger: seq<Transaction>, ts: string)
    requires IsCustomer(s) && s.balance == Some(12000)
    ensures var res := Withdraw(State(s, ledger), Number(50.0), ts);
            && res.1.Ok? && res.1.body.WithdrawDone?
            && res.0.session.balance == Some(7000)
            && |res.0.ledger| == |ledger| + 1
            && res.0.ledger[|ledger|].amount == 50
            && res.0.ledger[|ledger|].balanceAfter == 7000
  {
  }
}
