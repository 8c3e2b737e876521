/** The per-client session: a dictionary whose keys may be absent. Each key is an
    `Option` field; `None` stands for a key that is not in the dictionary. */
module SessionState {
  import opened Wrappers
  import opened Format

  const DEFAULT_PIN := "1234"
  const ADMIN_PASSWORD := "4321"
  /** The starting balance, 123.45 pounds, in pence. */
  const STARTING_BALANCE := 12345

  datatype Session = Session(
    pin: Option<string>,
    balance: Option<int>,          // pence
    loggedIn: Option<bool>,
    isAdmin: Option<bool>,
    pinChangeStep: Option<int>,
    newPin: Option<string>)

  /** The session with no keys at all: a new client, or one just logged out. */
  const Empty := Session(None, None, None, None, None, None)

  /** A PIN as the change-PIN flow accepts it: exactly four ASCII digits. */
  predicate IsPin(p: string) {
    |p| == 4 && forall i :: 0 <= i < |p| ==> IsDigit(p[i])
  }

  /** The five keys `initialize_session` fills in are all present. */
  predicate IsInitialized(s: Session) {
    s.pin.Some? && s.balance.Some? && s.loggedIn.Some? && s.isAdmin.Some? && s.pinChangeStep.Some?
  }

  /** Fills in every absent key with its default and leaves present keys alone. */
  function Initialize(s: Session): (r: Session)
    ensures IsInitialized(r)
    ensures s.pin.Some? ==> r.pin == s.pin
    ensures s.pin.None? ==> r.pin == Some(DEFAULT_PIN)
    ensures s.balance.Some? ==> r.balance == s.balance
    ensures s.balance.None? ==> r.balance == Some(STARTING_BALANCE)
    ensures s.loggedIn.Some? ==> r.loggedIn == s.loggedIn
    ensures s.loggedIn.None? ==> r.loggedIn == Some(false)
    ensures s.isAdmin.Some? ==> r.isAdmin == s.isAdmin
    ensures s.isAdmin.None? ==> r.isAdmin == Some(false)
    ensures s.pinChangeStep.Some? ==> r.pinChangeStep == s.pinChangeStep
    ensures s.pinChangeStep.None? ==> r.pinChangeStep == Some(0)
    ensures r.newPin == s.newPin
    ensures IsInitialized(s) ==> r == s
  {
    Session(
      if s.pin.Some? then s.pin else Some(DEFAULT_PIN),
      if s.balance.Some? then s.balance else Some(STARTING_BALANCE),
      if s.loggedIn.Some? then s.loggedIn else Some(false),
      if s.isAdmin.Some? then s.isAdmin else Some(false),
      if s.pinChangeStep.Some? then s.pinChangeStep else Some(0),
      s.newPin)
  }

  /** Initializing twice is the same as initializing once; on a new session it
      gives PIN 1234, the starting balance, logged out, not admin, step 0. */
  lemma InitializeIdempotent(s: Session)
    ensures Initialize(Initialize(s)) == Initialize(s)
    ensures Initialize(Empty) == Session(Some(DEFAULT_PIN), Some(STARTING_BALANCE), Some(false), Some(false), Some(0), None)
  {
  }

  /** The routes authorised for a customer only: `logged_in` is truthy and
      `is_admin` is not. */
  predicate IsCustomer(s: Session) {
    s.loggedIn == Some(true) && s.isAdmin != Some(true)
  }

  /** What every reachable session satisfies. The four keys that only
      `initialize_session` adds come and go together with the step; the PIN and
      any pending new PIN are four digits; the balance is never negative; the
      step is 0, 1 or 2; a pending new PIN exists only at steps 1 and 2 and
      always at step 2. */
  predicate Valid(s: Session) {
    && (s.pin.Some? || s.balance.Some? || s.loggedIn.Some? || s.isAdmin.Some? ==> IsInitialized(s))
    && (s.pin.Some? ==> IsPin(s.pin.value))
    && (s.balance.Some? ==> s.balance.value >= 0)
    && (s.pinChangeStep.Some? ==> 0 <= s.pinChangeStep.value <= 2)
    && (s.newPin.Some? ==> IsPin(s.newPin.value) && s.pinChangeStep in {Some(1), Some(2)})
    && (s.pinChangeStep == Some(2) ==> s.newPin.Some?)
  }
}
