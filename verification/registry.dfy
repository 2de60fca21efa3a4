/** The account registry kept by the banking app: a map from account number
    to ledger entry, with opening, login, closing and the app-level money
    commands that look accounts up by number before calling the ledger. */
module Registry {
  import opened Outcomes
  import opened AccountNumbers
  import Ledger

  type Accounts = map<string, Ledger.Account>

  /** The smallest opening balance the open-account dialog accepts. */
  const MinimumOpening: real := 500.0

  /** Why the app refuses a request. */
  datatype Error =
    | InvalidOrDuplicateName   // "Invalid or duplicate name"
    | InvalidPasscode          // "Invalid passcode."
    | BelowMinimumBalance      // opening balance under the dialog's minimum
    | NoFreshNumber            // the supplied draws ran out (see FirstFresh)
    | NoAccountsYet            // "No accounts exist yet"
    | AuthenticationFailed     // "Account not found or wrong passcode"
    | AccountNotFound          // closing a number that is not a key
    | NeedTwoAccounts          // "Need at least 2 accounts to transfer"
    | InvalidRecipient         // "Invalid recipient account"
    | Rejected(reason: Ledger.Error)  // the ledger raised `ValueError`

  predicate NameTaken(accounts: Accounts, name: string) {
    exists k | k in accounts :: accounts[k].name == name
  }

  /** A passcode the open-account dialog accepts: at least four digits. */
  predicate ValidPasscode(p: string) {
    |p| >= 4 && forall i :: 0 <= i < |p| ==> IsDigit(p[i])
  }

  /** What holds of every registry the app can reach: each entry is filed
      under its own number, which has the generator's shape; holder names
      are non-empty and pairwise distinct; passcodes are valid; and no
      balance is negative. */
  predicate Valid(accounts: Accounts) {
    && (forall k | k in accounts ::
          && accounts[k].number == k
          && IsAccountNumber(k)
          && accounts[k].name != ""
          && ValidPasscode(accounts[k].passcode)
          && 0.0 <= accounts[k].balance)
    && (forall j, k | j in accounts && k in accounts && j != k ::
          accounts[j].name != accounts[k].name)
  }

  /** `after` agrees with `before` on every key except `key`. */
  predicate OthersUnchanged(before: Accounts, after: Accounts, key: string) {
    forall j | j in before && j != key :: j in after && after[j] == before[j]
  }

  /** Opens an account: the name, passcode and opening-balance checks in
      the order the dialogs ask for them, then a fresh number from the
      generator's `draws`, then the insert. */
  function OpenAccount(accounts: Accounts, name: string, passcode: string,
                       opening: real, draws: seq<int>): (r: Result<(Accounts, string), Error>)
    requires forall i :: 0 <= i < |draws| ==> Lowest <= draws[i] <= Highest
    ensures r.Ok? <==> && name != "" && !NameTaken(accounts, name)
                       && ValidPasscode(passcode) && MinimumOpening <= opening
                       && FirstFresh(accounts.Keys, draws).Some?
    ensures name == "" || NameTaken(accounts, name) ==> r == Err(InvalidOrDuplicateName)
    ensures name != "" && !NameTaken(accounts, name) && !ValidPasscode(passcode) ==>
      r == Err(InvalidPasscode)
    ensures (name != "" && !NameTaken(accounts, name) && ValidPasscode(passcode)
             && opening < MinimumOpening) ==> r == Err(BelowMinimumBalance)
    ensures r.Ok? ==> r.value.1 !in accounts && IsAccountNumber(r.value.1)
    ensures r.Ok? ==> r.value.0.Keys == accounts.Keys + {r.value.1}
    ensures r.Ok? ==> OthersUnchanged(accounts, r.value.0, r.value.1)
    ensures r.Ok? ==> r.value.0[r.value.1] == Ledger.Open(r.value.1, name, passcode, opening)
  {
    if name == "" || NameTaken(accounts, name) then Err(InvalidOrDuplicateName)
    else if !ValidPasscode(passcode) then Err(InvalidPasscode)
    else if opening < MinimumOpening then Err(BelowMinimumBalance)
    else match FirstFresh(accounts.Keys, draws)
      case None => Err(NoFreshNumber)
      case Some(k) => Ok((accounts[k := Ledger.Open(k, name, passcode, opening)], k))
  }

  /** The login check: the number is a key and the passcode matches it
      exactly. */
  function Login(accounts: Accounts, number: string, passcode: string): (r: Result<Ledger.Account, Error>)
    ensures r.Ok? <==> number in accounts && accounts[number].passcode == passcode
    ensures r.Ok? ==> r.value == accounts[number]
    ensures |accounts| == 0 ==> r == Err(NoAccountsYet)
    ensures |accounts| != 0 && r.Err? ==> r.error == AuthenticationFailed
  {
    if |accounts| == 0 then Err(NoAccountsYet)
    else if number in accounts && accounts[number].passcode == passcode then Ok(accounts[number])
    else Err(AuthenticationFailed)
  }

  /** Deletes the entry filed under `key`. */
  function Close(accounts: Accounts, key: string): (r: Result<Accounts, Error>)
    ensures r.Ok? <==> key in accounts
    ensures r.Err? ==> r.error == AccountNotFound
    ensures r.Ok? ==> r.value.Keys == accounts.Keys - {key} && |r.value| == |accounts| - 1
    ensures r.Ok? ==> OthersUnchanged(accounts, r.value, key)
    ensures r.Ok? && Valid(accounts) ==> Valid(r.value)
  {
    if key !in accounts then Err(AccountNotFound)
    else Ok(accounts - {key})
  }

  /** Deposit, withdrawal or top-up on the account filed under `key`. */
  function Transact(accounts: Accounts, key: string, op: Ledger.Op): (r: Result<Accounts, Error>)
    requires key in accounts
    ensures r.Ok? <==> Ledger.Step(accounts[key], op).Ok?
    ensures r.Err? ==> r.error == Rejected(Ledger.Step(accounts[key], op).error)
    ensures r.Ok? ==> r.value.Keys == accounts.Keys && OthersUnchanged(accounts, r.value, key)
    ensures r.Ok? ==> Ledger.SameHolder(accounts[key], r.value[key])
    ensures r.Ok? ==> r.value[key] == Ledger.Step(accounts[key], op).value
    ensures r.Ok? ==> |r.value[key].log| == |accounts[key].log| + 1
    ensures r.Ok? ==> r.value[key].log[..|accounts[key].log|] == accounts[key].log
    ensures r.Ok? ==> r.value[key].balance
                      == accounts[key].balance + Ledger.Effect(r.value[key].log[|accounts[key].log|])
    ensures r.Ok? && Valid(accounts) ==> Valid(r.value)
  {
    match Ledger.Step(accounts[key], op)
    case Err(e) => Err(Rejected(e))
    case Ok(a) => Ok(accounts[key := a])
  }

  /** "Send Money" from the account filed under `from` to the one filed
      under `to`: the app's own checks, then the ledger's transfer. */
  function SendMoney(accounts: Accounts, from: string, to: string, amount: real): (r: Result<Accounts, Error>)
    requires from in accounts
    ensures |accounts| < 2 ==> r == Err(NeedTwoAccounts)
    ensures 2 <= |accounts| && (to !in accounts || to == from) ==> r == Err(InvalidRecipient)
    ensures r.Ok? <==> && 2 <= |accounts| && to in accounts && to != from
                       && Ledger.Transfer(accounts[from], accounts[to], amount).Ok?
    ensures (2 <= |accounts| && to in accounts && to != from
             && Ledger.Transfer(accounts[from], accounts[to], amount).Err?) ==>
      r == Err(Rejected(Ledger.Transfer(accounts[from], accounts[to], amount).error))
    ensures r.Ok? ==> r.value.Keys == accounts.Keys
    ensures r.Ok? ==> forall j | j in accounts && j != from && j != to :: r.value[j] == accounts[j]
    ensures r.Ok? ==> r.value[from].balance == accounts[from].balance - amount
    ensures r.Ok? ==> r.value[to].balance == accounts[to].balance + amount
    ensures r.Ok? ==> Ledger.Appended(accounts[from], r.value[from], Ledger.Sent(amount, accounts[to].name))
    ensures r.Ok? ==> Ledger.Appended(accounts[to], r.value[to], Ledger.Received(amount, accounts[from].name))
    ensures r.Ok? && Valid(accounts) ==> Valid(r.value)
  {
    if |accounts| < 2 then Err(NeedTwoAccounts)
    else if to !in accounts || to == from then Err(InvalidRecipient)
    else match Ledger.Transfer(accounts[from], accounts[to], amount)
      case Err(e) => Err(Rejected(e))
      case Ok((s, d)) => Ok(accounts[from := s][to := d])
  }

  /** Opening an account keeps the registry valid. */
  lemma OpenKeepsValid(accounts: Accounts, name: string, passcode: string,
                       opening: real, draws: seq<int>)
    requires forall i :: 0 <= i < |draws| ==> Lowest <= draws[i] <= Highest
    requires Valid(accounts)
    requires OpenAccount(accounts, name, passcode, opening, draws).Ok?
    ensures Valid(OpenAccount(accounts, name, passcode, opening, draws).value.0)
  {
  }

  /** Closing a just-opened account gives back the registry as it was. */
  lemma CloseUndoesOpen(accounts: Accounts, name: string, passcode: string,
                        opening: real, draws: seq<int>)
    requires forall i :: 0 <= i < |draws| ==> Lowest <= draws[i] <= Highest
    requires OpenAccount(accounts, name, passcode, opening, draws).Ok?
    ensures var (m, k) := OpenAccount(accounts, name, passcode, opening, draws).value;
            Close(m, k) == Ok(accounts)
  {
    var (m, k) := OpenAccount(accounts, name, passcode, opening, draws).value;
    assert m - {k} == accounts;
  }

  /** The holder of a just-opened account can log in with its passcode,
      and nobody can with any other passcode. */
  lemma LoginAfterOpen(accounts: Accounts, name: string, passcode: string,
                       opening: real, draws: seq<int>, attempt: string)
    requires forall i :: 0 <= i < |draws| ==> Lowest <= draws[i] <= Highest
    requires OpenAccount(accounts, name, passcode, opening, draws).Ok?
    ensures var (m, k) := OpenAccount(accounts, name, passcode, opening, draws).value;
            Login(m, k, attempt).Ok? <==> attempt == passcode
  {
  }

  /** With fewer than `Capacity` accounts, a valid application is refused
      only for want of a fresh draw: some single draw always succeeds. */
  lemma OpenSucceedsWithSomeDraw(accounts: Accounts, name: string, passcode: string, opening: real)
    requires |accounts| < Capacity
    requires name != "" && !NameTaken(accounts, name)
    requires ValidPasscode(passcode) && MinimumOpening <= opening
    ensures exists n :: Lowest <= n <= Highest && OpenAccount(accounts, name, passcode, opening, [n]).Ok?
  {
    FreeNumberExists(accounts.Keys);
    var n :| Lowest <= n <= Highest && NumberText(n) !in accounts.Keys;
    assert FirstFresh(accounts.Keys, [n]).Some?;
  }
}
