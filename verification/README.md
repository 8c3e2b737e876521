# ATM web simulator — a Dafny model of its session logic

The application is a small Flask web ATM. A client's session holds a PIN
(default `1234`), a balance (default £123.45), the flags `logged_in` and
`is_admin`, and the progress of a three-step PIN change (`pin_change_step` and
a pending `new_pin`). A shared, append-only ledger records every successful
withdrawal. The routes log a client in (admin password `4321` first, then the
session PIN), withdraw money after an ordered chain of checks, walk through the
PIN change, list the ledger, reset the PIN change and log out.

The model has two layers:

- `Routes` describes each route as a function from the state (session and
  ledger) and the request's parsed input to the new state and a reply. `Step`
  and `Run` apply a sequence of requests from one client. `Traces` proves
  properties of whole runs: the invariant is kept, the ledger only grows at its
  end, money is conserved while this client is the only one writing to the
  ledger, and a new PIN can only come from a confirmation.
- `AtmMachine.Atm` is the application as it runs. The session keys are fields
  that the handlers update in place, and the ledger is a sequence field. Each
  handler is proved to produce exactly the state and reply that the matching
  `Routes` function gives.

Modules: `Wrappers` (Option, Result), `Format` (display strings), `Ledger`
(transaction records), `Withdrawal` (`validate_withdrawal`), `SessionState`
(the session dictionary and `initialize_session`), `Routes`, `Traces`,
`AtmMachine`.

Modelling choices:

- A session key that is absent from the dictionary is `None`.
- Money in the session and in `balance_after` is integer pence; the starting
  balance is 12345.
- A withdrawal amount is in whole pounds once validated.
- The amount field arrives already parsed, as `NotNumber` or `Number(real)`.
- The clock reading that `add_transaction` stamps on a record is a parameter of
  the request.
- An uncaught exception in a handler is the reply `ServerError` and changes
  nothing. This covers a `KeyError` on a missing key, and the view falling off
  its end when the step is not 0, 1 or 2. Neither can happen in a session that
  satisfies `SessionState.Valid`; `Traces.ValidNeverServerError` proves this.

Behaviour of the code that the model keeps:

- After a confirmation mismatch at step 2, the code goes back to step 1 but
  keeps `new_pin` (app.py:241-247), so `SessionState.Valid` allows a pending
  PIN at step 1.
- A failed login still fills in absent session keys, because
  `initialize_session` runs first (app.py:115).
- Logout removes the `pin` and `balance` keys together with the rest of the
  session (app.py:273). The next login fills them in again
  (app.py:64-67), so a changed PIN reverts to `1234` and the balance is
  refilled to 12345 pence, while the ledger keeps its earlier records
  (`Traces.LogoutForgetsPin`).

## Model

| member | source | states |
|---|---|---|
| `Withdrawal.ValidateWithdrawal` | app.py:75-97 | checks run in the order number, > 0, whole, multiple of 10, ≤ balance, and the first failure decides the error (each case an if-and-only-if against the rule defined on its own); success returns a positive whole multiple of 10 not above the balance |
| `SessionState.Initialize` | app.py:62-73 | every absent key gets its default (PIN 1234, 12345 pence, not logged in, not admin, step 0); every present key and `new_pin` are kept; an initialized session is returned unchanged |
| `SessionState.InitializeIdempotent` | app.py:62-73 | initializing twice equals initializing once; a new session initializes to the five defaults with no pending PIN |
| `Ledger.NewTransaction` | app.py:45-56 | the record has type `withdrawal`, the given amount, balance after and timestamp, and the display line built from them with the title-cased type `Withdrawal` |
| `Format.NatToString` | app.py:55 | the decimal notation of a natural number is non-empty and made of ASCII digits only |
| `Format.NatToStringValue` | app.py:55 | the digits `NatToString` writes stand for the number itself |
| `Format.MoneyValue` | app.py:55 | `:.2f` of a non-negative amount of pence is digits, a point and two digits; the digits before the point stand for the whole pounds, the two after it for the remaining pence |
| `Format.MoneyNegative` | app.py:55 | `:.2f` of a negative amount is a minus sign before the amount's magnitude |
| `Format.TitleLetters` | app.py:55 | `str.title()` of one word keeps its letters ignoring case, with the first upper case and the rest lower case |
| `Ledger.FormatLineFields` | app.py:55 | the display line splits back, at known positions, into the timestamp, the title-cased type, the amount with two decimals and the balance after with two decimals |
| `Routes.Login` | app.py:109-144 | admin reply iff the attempt is the admin password; customer reply iff it is not but equals the initialized PIN, with `logged_in` set, `is_admin` cleared, the ledger length and the balance; a rejection leaves an initialized session unchanged; the ledger is untouched; the invariant is kept |
| `Routes.Withdraw` | app.py:156-186 | Unauthorized iff not a logged-in non-admin; only success changes state; success debits 100 × amount pence, leaves a non-negative balance, appends exactly one record with that amount and balance after, and keeps earlier records; a rejection carries the validator's error; the invariant is kept |
| `Routes.ChangePin` | app.py:188-247 | Unauthorized iff not a logged-in non-admin; step 0 moves to 1 only on the current PIN; step 1 stores a four-digit new PIN and moves to 2, otherwise stays; step 2 commits the matching PIN, goes to step 0 and drops `new_pin`, otherwise goes back to 1; the PIN is untouched in steps 0 and 1; balance and flags never change; the invariant is kept |
| `Routes.Transactions` | app.py:249-268 | Unauthorized iff not logged in; otherwise every record's display line in ledger order, with count equal to the ledger length |
| `Routes.Logout` | app.py:270-277 | every session key is removed |
| `Routes.ResetPinChange` | app.py:279-284 | step 0 and no pending PIN from any session; PIN, balance and flags kept; the invariant is kept |
| `Traces.StepKeepsValid` | app.py:62-284 | every route keeps the session and ledger invariant |
| `Traces.RunKeepsValid` | app.py:62-284 | any sequence of requests keeps the invariant: PIN and pending PIN four digits, balance ≥ 0, step in {0,1,2}, pending PIN only at steps 1–2 and always at 2, and every ledger record a valid withdrawal |
| `Traces.RunExtendsLedger` | app.py:45-60 | over any run the old ledger is a prefix of the new one, and every record added after it is a valid withdrawal record, whatever the stored ledger held |
| `Traces.RunConservesMoney` | app.py:166-179 | without a logout, the balance plus 100 × the pounds recorded in the ledger never changes |
| `Traces.PinWriters` | app.py:229-234 | one request changes the stored PIN only by logout, by filling in the default, or by a step-2 confirmation equal to the pending PIN |
| `Traces.RunPinProvenance` | app.py:229-234 | without a logout, the final PIN is the initial one or one that a request of the run submitted as a change-PIN input |
| `Traces.ValidNeverServerError` | app.py:156-247 | in a session that satisfies the invariant, neither the withdrawal nor the PIN-change route fails with an uncaught exception |
| `Traces.AdminPasswordShadowsPin` | app.py:117-138 | a customer whose PIN is `4321` can never log in as a customer: that input always gives the admin reply |
| `Traces.AdminIsReadOnly` | app.py:156-192 | an admin session gets Unauthorized from withdrawal and PIN change, with nothing changed |
| `Traces.HistoryIgnoresRole` | app.py:257-268 | the history reply is the same for admin and customer sessions |
| `Traces.PinChangeScenario` | app.py:188-247 | login 1234, then change-PIN inputs 1234, 5678, 5678: PIN 5678, step 0, no pending PIN, ledger unchanged; 1234 is now rejected and 5678 logs in |
| `Traces.ShortPinScenario` | app.py:213-227 | at step 1 the three-digit `567` is refused and the session is unchanged |
| `Traces.LogoutForgetsPin` | app.py:270-277 | after logout the default PIN logs in again, any login refills the balance to 12345 pence, and the ledger is untouched |
| `Traces.WithdrawScenario` | app.py:156-186 | withdrawing 50 from 12000 pence leaves 7000 and appends one record with amount 50 and balance after 7000 |
| `AtmMachine.Atm.constructor` | app.py:30-38 | a new client has no session keys and sees the stored ledger |
| `AtmMachine.Atm.InitializeSession` | app.py:62-73 | the session becomes `Initialize` of the old one; the ledger is untouched |
| `AtmMachine.Atm.AddTransaction` | app.py:45-60 | returns the new record and appends exactly it to the end of the ledger |
| `AtmMachine.Atm.Login` | app.py:109-144 | new state and reply are those of `Routes.Login`; the flags are set per reply; a rejection of an initialized session changes nothing |
| `AtmMachine.Atm.Withdraw` | app.py:156-186 | new state and reply are those of `Routes.Withdraw`; success sets the balance and appends one record; any other reply changes nothing |
| `AtmMachine.Atm.ChangePin` | app.py:188-247 | new session and reply are those of `Routes.ChangePin`; the PIN changes only on a completed change, to the old pending PIN; ledger and balance are untouched |
| `AtmMachine.Atm.Transactions` | app.py:249-268 | the reply is `Routes.Transactions` of the current state: Ok iff logged in, and then the ledger's display lines and length |
| `AtmMachine.Atm.Logout` | app.py:270-277 | the session becomes empty; the ledger is untouched |
| `AtmMachine.Atm.ResetPinChange` | app.py:279-284 | step 0 and no pending PIN; everything else is kept |

## Left out

- `api_balance` (app.py:146-154) is not part of this model; its authorisation test is the one `Routes.Withdraw` models.
- The Flask layer is not modelled: routing, `request.get_json`, `jsonify`, templates, the secret key, and the 404 and 500 handlers. A reply names the outcome, not the JSON body or the message text. A body that is not JSON, where `get_json` returns None, is out of scope.
- Traces.RunConservesMoney: the model follows one client. All clients share one ledger file (app.py:21), and `add_transaction` re-reads it on every append (app.py:47). So another client's withdrawal between two requests of this client adds a record without changing this session's balance. The lemma holds only when no other client writes to the ledger, and other clients' appends are not modelled.
- File storage is not modelled. `load_transactions`, `save_transactions` and the `data/` directory are replaced by the in-memory ledger sequence. The whole-file read-modify-write assumes a single writer, which is a concurrency matter.
- Timestamps come from `datetime.now()`, so they are a request parameter.
- Python floats are not modelled. The string parse `float(amount_str)` is replaced by the `Amount` datatype, which stands for its result. This leaves out `nan` and `inf` (`inf` raises `OverflowError` at `int(amount)`), a JSON `null` amount (which raises `TypeError`), and float rounding of the balance. Money is exact integer pence.
- `str.isdigit` also accepts non-ASCII digits. The model accepts only ASCII `0`–`9`.
- A PIN sent as a JSON number instead of a string is not modelled; the model takes the PIN input as a string. Such a PIN never equals the stored PIN at login or at steps 0 and 2, and at step 1 `len(pin_input)` raises `TypeError`, a 500 (app.py:215).
- `Format.Title` models `str.title()` for one word only. The source only calls it on `withdrawal`.
- Session expiry and the signing of the session cookie are not modelled.
- The `/debug` and `/reset-data` routes (app.py:302-320) are development-only and are not modelled.
