# Banking ledger model

A Dafny model of the in-memory banking ledger of the `SangitaRana_02230076_A3`
desktop banking app. It covers two parts:

- **The ledger entry** (`BankAccount`, module `Ledger`). It holds an account
  number, a holder name, a passcode, a balance and an append-only transaction log.
  It has four guarded operations: deposit, withdraw, transfer and mobile top-up.
  Each one either raises one of three errors and changes nothing, or applies
  an exact balance update and appends one log entry. A transfer is the only
  operation that touches two accounts.
- **The registry logic inside `BankApp`** (modules `AccountNumbers`, `Registry`,
  `History`, `Session`). These are plain functions over a
  `map<string, Account>` from account number to ledger entry:
  - the five-digit account-number generator and its retry loop;
  - open-account validation and insert;
  - the login check;
  - closing an account;
  - the app-level money commands;
  - the last-ten history view.

  `Session` makes the app's "current account" explicit state and replays any
  sequence of button presses.

Money is an exact `real`, not a float. Log lines are the structured `Entry`
datatype, not formatted strings. Every raised `ValueError` or error dialog is an
`Err` value carrying its kind. The ledger's three kinds keep the source's check
order: `AmountNotPositive`, then `InvalidTransfer` (a non-positive amount or a
transfer to oneself), then `NotEnoughBalance`.

The reference definitions that the operations are proved against:
- `Ledger.Effect` / `Ledger.Net` give the balance change each log entry records.
  Every successful step's balance change equals the `Effect` of the entry it
  appends. Over any run of operations, the balance moves by exactly the `Net` of
  the new log entries.
- `Registry.Valid` / `Session.Valid` is the invariant that every reachable app
  state keeps:
  - each entry is filed under its own five-digit number;
  - holder names are unique and non-empty;
  - passcodes are valid;
  - no balance is negative;
  - the current account, if any, exists.
- `AccountNumbers.Value` parses a digit string, and `NumberText` is proved to
  round-trip through it.
- Closing a just-opened account is proved to restore the registry.

## Model

| member | source | states |
|---|---|---|
| Ledger.Open | SangitaRana_02230076_A3.py:6-11 | a new ledger entry keeps the given number, name, passcode and balance (0 when none is given), and starts with an empty log |
| Ledger.Deposit | SangitaRana_02230076_A3.py:13-16 | succeeds iff amount > 0. Otherwise it fails with AmountNotPositive. On success the balance rises by exactly the amount, exactly one Deposited(amount) is appended, and number, name and passcode are kept |
| Ledger.Withdraw | SangitaRana_02230076_A3.py:18-22 | succeeds iff 0 < amount <= balance. A non-positive amount gives AmountNotPositive. Otherwise an amount above the balance gives NotEnoughBalance. On success the balance drops by exactly the amount and stays >= 0, and one Withdrew(amount) is appended |
| Ledger.Transfer | SangitaRana_02230076_A3.py:24-30 | succeeds iff 0 < amount <= source balance and the target is a different account. A non-positive amount or a self-transfer gives InvalidTransfer, whatever the balance: the self check comes before the funds check. On success the source is debited and the target credited by the amount, so their sum is conserved. The source gains one Sent(amount, target name) and the target one Received(amount, source name) |
| Ledger.MobileTopUp | SangitaRana_02230076_A3.py:32-36 | same guards and error order as withdraw. On success the balance drops by exactly the amount and stays >= 0, and one TopUp(amount, phone) is appended |
| Ledger.Step | SangitaRana_02230076_A3.py:13-36 | any successful single-account operation keeps the holder and extends the log by one entry, with the old log as a prefix. The balance change equals the Effect of the new entry. It never reports InvalidTransfer, and it keeps a non-negative balance non-negative |
| Ledger.RunKeepsLedger | SangitaRana_02230076_A3.py:11-36 | after any sequence of operations, with failures leaving the account as it was: the holder is unchanged; the old log is a prefix of the new one; the log grew by at most one entry per operation; the balance moved by exactly the Net of the new entries; and a non-negative balance stays non-negative |
| Ledger.TransferEntriesCancel | SangitaRana_02230076_A3.py:27-30 | the Sent and Received entries that a successful transfer appends have effects that cancel, so the money recorded as leaving one log is exactly the money recorded as arriving in the other |
| History.Reverse | SangitaRana_02230076_A3.py:137 | the reversed sequence has the same length, and its i-th element is the i-th from the end |
| History.Recent | SangitaRana_02230076_A3.py:136-137 | the panel shows min(10, log length) entries, and its i-th line is the i-th most recent log entry (most recent first) |
| History.RecentAfterAppend | SangitaRana_02230076_A3.py:136-137 | right after an entry is appended it heads the panel, and the remaining lines are the previous panel shifted down by one |
| AccountNumbers.NumberText | SangitaRana_02230076_A3.py:102 | `str(n)` for n in [10000, 99999] is five decimal digits with no leading zero, and parsing it back gives n |
| AccountNumbers.NumberTextInjective | SangitaRana_02230076_A3.py:102 | distinct draws give distinct account-number strings |
| AccountNumbers.FreeNumberExists | SangitaRana_02230076_A3.py:100-103 | while fewer than 90000 numbers are taken, some number in range is free, so the retry loop has something to return |
| AccountNumbers.FirstFresh | SangitaRana_02230076_A3.py:100-103 | the retry loop returns the first draw whose text is not already a key. The result is not taken, has the account-number shape, and every earlier draw was taken. It returns nothing exactly when every supplied draw was taken |
| Registry.OpenAccount | SangitaRana_02230076_A3.py:105-115 | refuses an empty or duplicate name first, then a passcode that is not all digits or is shorter than 4, then an opening balance under 500, and succeeds iff none of these apply and a fresh draw exists. On success exactly one new key is added: a fresh five-digit number, holding the new account with an empty log. Every existing entry is untouched |
| Registry.OpenKeepsValid | SangitaRana_02230076_A3.py:107-115 | opening an account keeps the registry invariant: names stay unique, numbers stay keys of their own entries, and balances stay non-negative |
| Registry.Login | SangitaRana_02230076_A3.py:118-124 | succeeds iff the number is a key and the passcode equals the stored one exactly, and then returns that entry. An empty registry is refused with NoAccountsYet, and any other failure is AuthenticationFailed |
| Registry.Close | SangitaRana_02230076_A3.py:175 | succeeds iff the key exists. It removes exactly that key, leaves every other entry unchanged, and keeps the invariant |
| Registry.Transact | SangitaRana_02230076_A3.py:140-150 | a deposit, withdrawal or top-up on one account succeeds iff the ledger accepts it, and reports the ledger's error otherwise. On success that account's entry becomes the ledger's result: holder kept, exactly one entry appended to its log, balance moved by that entry's effect. Every other entry is unchanged and the invariant is preserved |
| Registry.SendMoney | SangitaRana_02230076_A3.py:152-161 | fewer than two accounts gives NeedTwoAccounts. Next, a recipient that is unknown or is the sender gives InvalidRecipient. Otherwise it succeeds iff the ledger transfer does, and a ledger refusal is reported with the ledger's own error (for example NotEnoughBalance). On success the sender loses and the recipient gains exactly the amount; the sender keeps its holder and gains one Sent(amount, recipient name) entry, the recipient keeps its holder and gains one Received(amount, sender name) entry; every other entry is unchanged, and the invariant is preserved |
| Registry.CloseUndoesOpen | SangitaRana_02230076_A3.py:175 | closing the account just opened gives back exactly the registry before the opening |
| Registry.LoginAfterOpen | SangitaRana_02230076_A3.py:122-124 | a just-opened account can be logged into with exactly its own passcode and no other |
| Registry.OpenSucceedsWithSomeDraw | SangitaRana_02230076_A3.py:100-115 | with fewer than 90000 accounts, a valid name, passcode and opening balance is accepted for some single draw |
| Session.OpenAccount | SangitaRana_02230076_A3.py:105-116 | opening succeeds exactly when the registry accepts it, and a refusal reports the registry's error; the new registry is exactly the registry's result, the set of keys strictly grows and the current account is left as it was |
| Session.OpenKeepsValid | SangitaRana_02230076_A3.py:105-116 | the app state stays valid after an open-account request, whether it is accepted or refused |
| Session.Login | SangitaRana_02230076_A3.py:118-128 | succeeds iff the number exists and the passcode matches, and a refusal reports the registry's error (NoAccountsYet or AuthenticationFailed). On success that account becomes current, the registry is untouched, and a valid app stays valid |
| Session.Logout | SangitaRana_02230076_A3.py:179-180 | nobody is current afterwards, and the registry is unchanged |
| Session.CloseCurrent | SangitaRana_02230076_A3.py:173-177 | with someone logged in and confirmation given, exactly the current key is removed and the session ends. With nobody logged in or without confirmation the state is unchanged. Every other entry is always untouched, and a valid app stays valid |
| Session.Act | SangitaRana_02230076_A3.py:140-150 | the deposit and withdraw buttons (and likewise top-up, once a phone number is given) succeed iff the ledger accepts the operation and otherwise report the ledger's error. On success the current account becomes exactly the ledger's result, every other entry is unchanged, the current account is kept and the app stays valid |
| Session.Send | SangitaRana_02230076_A3.py:152-161 | succeeds iff the registry's send from the current account succeeds, reporting its error otherwise. A successful send is to another existing account; it debits the current account and credits the recipient by exactly the amount, leaves the registry exactly as the registry's send computes it (so every other entry is unchanged), keeps the current account and keeps the app valid |
| Session.Display | SangitaRana_02230076_A3.py:130-137 | something is shown iff someone is logged in. It shows their balance, which is non-negative in a valid state, and exactly the history panel of their log: min(10, log length) entries, most recent first |
| Session.Handle | SangitaRana_02230076_A3.py:140-186 | the button dispatch: money buttons do nothing while logged out; a top-up whose phone-number answer is empty does nothing; a refused open, login, deposit, withdrawal, top-up or send leaves the whole state as it was; an accepted open, login, deposit, withdrawal, top-up or send gives exactly the state the matching session operation computes; logout is exactly Logout and a close press is exactly CloseCurrent with the holder's answer |
| Session.HandleKeepsValid | SangitaRana_02230076_A3.py:140-186 | every button press, accepted or refused, keeps the app state valid |
| Session.ReplayKeepsValid | SangitaRana_02230076_A3.py:97-186 | after any sequence of button presses from a valid state, the state is valid, and in particular every balance is non-negative |
| Session.StartIsValid | SangitaRana_02230076_A3.py:97-98 | the empty registry with nobody logged in is a valid state |
| Scenarios.DepositScenarios | SangitaRana_02230076_A3_test.py:9-16 | Alice at 1000 depositing 200 ends at 1200 with one Deposited(200) entry, and depositing -100 is refused |
| Scenarios.WithdrawScenarios | SangitaRana_02230076_A3_test.py:18-29 | Alice withdrawing 300 ends at 700 with one Withdrew(300) entry. Bob at 500 withdrawing 600 gets NotEnoughBalance, and withdrawing -10 is refused |
| Scenarios.TransferScenarios | SangitaRana_02230076_A3_test.py:31-48 | Alice sending 400 to Bob leaves 600 and 900 with Sent(400, Bob) and Received(400, Alice). A transfer to herself, an overdraft and a negative amount are each refused with the matching error |
| Scenarios.TopUpScenarios | SangitaRana_02230076_A3_test.py:50-61 | a top-up of 100 to 17123456 leaves 900 with one TopUp entry. An overdraft and a negative amount are refused |
| Scenarios.OpenAccountScenarios | SangitaRana_02230076_A3.py:107-112 | with Alice on file, a second Alice, a three-digit passcode and an opening balance of 499 are each refused with their own error |

## Left out

- The tkinter widgets, dialogs, message boxes, colours, layout and button
  enable/disable state. A disabled money button is modelled as a precondition
  (`Session.Act`, `Session.Send` require a logged-in account), or, in
  `Session.Handle`, as a press that does nothing.
- Cancelling a dialog (a `None` answer) and the dialogs' own `minvalue` checks
  on transaction amounts are not modelled, except that an empty phone number
  makes the top-up button do nothing (`Session.Handle`). Amounts reach the ledger as given,
  and the ledger's own checks apply.
- Registry.OpenAccount: the opening-balance dialog re-prompts below 500 rather than
  reporting an error. The model reports `BelowMinimumBalance` instead.
- Registry.OpenAccount: `random.randint` is replaced by a supplied sequence of
  draws. When every supplied draw is already a key, the model reports
  `NoFreshNumber`, which stands for the retry loop not having returned yet.
  The loop's termination and its randomness are not modelled.
  `AccountNumbers.FreeNumberExists` shows a free number exists while fewer
  than 90000 accounts are open.
- Ledger.Transfer: Python compares the two `BankAccount` objects by identity. The model
  compares account numbers. The two agree inside the registry, where every
  entry is filed under its own number, but not for two separately built objects
  that share a number.
- Registry.ValidPasscode: Python's `str.isdigit` also accepts non-ASCII digit
  characters. The model accepts only `'0'`–`'9'`.
- Float arithmetic and the `:.2f` formatting of amounts in log lines are not modelled.
  Amounts are exact reals, and log lines are structured entries.
- The "No transactions yet" placeholder in the history panel is display-only.
- The `__main__` block and the window set-up are not modelled.
