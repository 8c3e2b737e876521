/** The session logic of each route, as a function from the current state and the
    request's input to the new state and the reply. The HTTP layer, JSON bodies
    and message texts are not modelled; a reply names the outcome. */
module Routes {
  import opened Wrappers
  import opened Format
  import opened Ledger
  import opened Withdrawal
  import opened SessionState

  /** One client's session together with the shared ledger. */
  datatype State = State(session: Session, ledger: seq<Transaction>)

  predicate ValidState(st: State) {
    Valid(st.session) && ValidLedger(st.ledger)
  }

  /** How a route ends: refused with 401, failed with an uncaught exception
      (500), or answered with a body. */
  datatype Reply<+T> = Unauthorized | ServerError | Ok(body: T)

  datatype LoginReply =
    | AdminWelcome
    | CustomerWelcome(transactionCount: nat, balance: int)
    | LoginRejected

  datatype WithdrawReply =
    | WithdrawRejected(error: WithdrawError)
    | WithdrawDone(balance: int, record: Transaction)

  datatype PinError = IncorrectCurrentPin | NotFourDigits | Mismatch

  datatype PinReply =
    | PinStepDone(step: int)   // moved on to step 1 or 2
    | PinChanged               // step 2 confirmed: `complete`
    | PinRejected(error: PinError)

  datatype History = History(lines: seq<string>, count: nat)

  /** `api_login`: initialize the session, then try the admin password before
      the session PIN. */
  function Login(st: State, attempt: string): (res: (State, LoginReply))
    ensures res.0.ledger == st.ledger
    ensures res.1.AdminWelcome? <==> attempt == ADMIN_PASSWORD
    ensures res.1.CustomerWelcome? <==>
              attempt != ADMIN_PASSWORD && Initialize(st.session).pin == Some(attempt)
    ensures res.1.AdminWelcome? ==>
              res.0.session == Initialize(st.session).(loggedIn := Some(true), isAdmin := Some(true))
    ensures res.1.CustomerWelcome? ==>
              && res.0.session == Initialize(st.session).(loggedIn := Some(true), isAdmin := Some(false))
              && res.1.transactionCount == |st.ledger|
              && res.1.balance == st.session.balance.GetOr(STARTING_BALANCE)
    ensures res.1.LoginRejected? ==> res.0.session == Initialize(st.session)
    ensures res.1.LoginRejected? && IsInitialized(st.session) ==> res.0 == st
    ensures ValidState(st) ==> ValidState(res.0)
  {
    var s := Initialize(st.session);
    if attempt == ADMIN_PASSWORD then
      (State(s.(loggedIn := Some(true), isAdmin := Some(true)), st.ledger), AdminWelcome)
    else if s.pin == Some(attempt) then
      (State(s.(loggedIn := Some(true), isAdmin := Some(false)), st.ledger),
       CustomerWelcome(|st.ledger|, s.balance.value))
    else
      (State(s, st.ledger), LoginRejected)
  }

  /** `api_withdraw`: a customer-only route. The validated amount is debited and
      one record is appended to the ledger; every other outcome changes nothing. */
  function Withdraw(st: State, amount: Amount, timestamp: string): (res: (State, Reply<WithdrawReply>))
    ensures res.1 == Unauthorized <==> !IsCustomer(st.session)
    ensures res.1 == ServerError <==> IsCustomer(st.session) && st.session.balance.None?
    ensures !(res.1.Ok? && res.1.body.WithdrawDone?) ==> res.0 == st
    ensures res.1.Ok? && res.1.body.WithdrawRejected? ==>
              Failure(res.1.body.error) == ValidateWithdrawal(amount, st.session.balance.value)
    ensures res.1.Ok? && res.1.body.WithdrawDone? ==>
              var n := res.1.body.record.amount;
              && ValidateWithdrawal(amount, st.session.balance.value) == Success(n)
              && res.0.session == st.session.(balance := Some(st.session.balance.value - 100 * n))
              && res.1.body.balance == st.session.balance.value - 100 * n >= 0
              && res.0.ledger == st.ledger + [res.1.body.record]
              && res.1.body.record == NewTransaction(n, res.1.body.balance, timestamp)
    ensures ValidState(st) ==> ValidState(res.0)
  {
    if !IsCustomer(st.session) then (st, Unauthorized)
    else if st.session.balance.None? then (st, ServerError)  // session['balance'] raises KeyError
    else
      var balance := st.session.balance.value;
      match ValidateWithdrawal(amount, balance)
      case Failure(e) => (st, Ok(WithdrawRejected(e)))
      case Success(n) =>
        var after := balance - 100 * n;
        var t := NewTransaction(n, after, timestamp);
        (State(st.session.(balance := Some(after)), st.ledger + [t]), Ok(WithdrawDone(after, t)))
  }

  /** `api_change_pin`: a customer-only three-step flow over `pin_change_step`
      (an absent step reads as 0). Step 0 checks the current PIN, step 1 takes a
      four-digit new PIN, step 2 commits it when the confirmation matches and
      otherwise goes back to step 1. */
  function ChangePin(s: Session, input: string): (res: (Session, Reply<PinReply>))
    ensures res.1 == Unauthorized <==> !IsCustomer(s)
    ensures !res.1.Ok? ==> res.0 == s
    ensures res.0.balance == s.balance && res.0.loggedIn == s.loggedIn && res.0.isAdmin == s.isAdmin
    ensures res.1.Ok? ==> IsCustomer(s)
    // step 0
    ensures res.1.Ok? && s.pinChangeStep.GetOr(0) == 0 ==>
              && res.0.pin == s.pin
              && (if Some(input) == s.pin
                  then res.1.body == PinStepDone(1) && res.0 == s.(pinChangeStep := Some(1))
                  else res.1.body == PinRejected(IncorrectCurrentPin) && res.0 == s)
    // step 1
    ensures res.1.Ok? && s.pinChangeStep.GetOr(0) == 1 ==>
              && res.0.pin == s.pin
              && (if IsPin(input)
                  then res.1.body == PinStepDone(2) && res.0 == s.(newPin := Some(input), pinChangeStep := Some(2))
                  else res.1.body == PinRejected(NotFourDigits) && res.0 == s)
    // step 2
    ensures res.1.Ok? && s.pinChangeStep.GetOr(0) == 2 ==>
              if s.newPin == Some(input)
              then res.1.body == PinChanged && res.0 == s.(pin := Some(input), pinChangeStep := Some(0), newPin := None)
              else res.1.body == PinRejected(Mismatch) && res.0 == s.(pinChangeStep := Some(1))
    ensures res.1 == ServerError <==>
              IsCustomer(s) && (s.pinChangeStep.GetOr(0) !in {0, 1, 2} || (s.pinChangeStep.GetOr(0) == 0 && s.pin.None?))
    ensures Valid(s) ==> Valid(res.0)
  {
    if !IsCustomer(s) then (s, Unauthorized)
    else
      var step := s.pinChangeStep.GetOr(0);
      if step == 0 then
        if s.pin.None? then (s, ServerError)  // session['pin'] raises KeyError
        else if input == s.pin.value then (s.(pinChangeStep := Some(1)), Ok(PinStepDone(1)))
        else (s, Ok(PinRejected(IncorrectCurrentPin)))
      else if step == 1 then
        if |input| == 4 && forall i :: 0 <= i < |input| ==> IsDigit(input[i]) then
          (s.(newPin := Some(input), pinChangeStep := Some(2)), Ok(PinStepDone(2)))
        else (s, Ok(PinRejected(NotFourDigits)))
      else if step == 2 then
        if s.newPin == Some(input) then
          (s.(pin := s.newPin, pinChangeStep := Some(0), newPin := None), Ok(PinChanged))
        else (s.(pinChangeStep := Some(1)), Ok(PinRejected(Mismatch)))
      else (s, ServerError)  // the view returns None
  }

  /** `api_transactions`: any logged-in session, admin or customer, reads the
      whole ledger's display lines in insertion order. */
  function Transactions(st: State): (r: Reply<History>)
    ensures r.Unauthorized? <==> st.session.loggedIn != Some(true)
    ensures !r.ServerError?
    ensures r.Ok? ==>
              && r.body.count == |st.ledger| == |r.body.lines|
              && forall i :: 0 <= i < |st.ledger| ==> r.body.lines[i] == st.ledger[i].formatted
  {
    if st.session.loggedIn != Some(true) then Unauthorized
    else Ok(History(Lines(st.ledger), |st.ledger|))
  }

  /** `api_logout`: every session key is removed. */
  function Logout(s: Session): (r: Session)
    ensures r.pin.None? && r.balance.None? && r.loggedIn.None? && r.isAdmin.None?
    ensures r.pinChangeStep.None? && r.newPin.None?
  {
    Empty
  }

  /** `api_reset_pin_change`: back to step 0 with no pending PIN, from any
      session and without an authorisation check. */
  function ResetPinChange(s: Session): (r: Session)
    ensures r.pinChangeStep == Some(0) && r.newPin.None?
    ensures r.pin == s.pin && r.balance == s.balance && r.loggedIn == s.loggedIn && r.isAdmin == s.isAdmin
    ensures Valid(s) ==> Valid(r)
  {
    s.(pinChangeStep := Some(0), newPin := None)
  }

  /** A request to one of the routes, with its already-parsed input. The clock
      reading a withdrawal stamps its record with is part of the request. */
  datatype Request =
    | Visit                                          // the index page
    | LoginReq(attempt: string)
    | WithdrawReq(amount: Amount, timestamp: string)
    | ChangePinReq(pin: string)
    | TransactionsReq
    | LogoutReq
    | ResetPinChangeReq

  /** The state after one request. */
  function Step(st: State, req: Request): (r: State) {
    match req
    case Visit => st.(session := Initialize(st.session))
    case LoginReq(a) => Login(st, a).0
    case WithdrawReq(a, ts) => Withdraw(st, a, ts).0
    case ChangePinReq(p) => st.(session := ChangePin(st.session, p).0)
    case TransactionsReq => st
    case LogoutReq => st.(session := Logout(st.session))
    case ResetPinChangeReq => st.(session := ResetPinChange(st.session))
  }

  /** The state after a sequence of requests from one client, in order. */
  function Run(st: State, reqs: seq<Request>): (r: State)
    decreases |reqs|
  {
    if reqs == [] then st else Run(Step(st, reqs[0]), reqs[1..])
  }
}
