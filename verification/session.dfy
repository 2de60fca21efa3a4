/** The app's state made explicit: the registry plus the account currently
    logged in. The money buttons are enabled only while someone is logged
    in, so the commands that use the current account require one. */
module Session {
  import opened Outcomes
  import opened AccountNumbers
  import Ledger
  import Registry
  import History

  datatype App = App(accounts: Registry.Accounts, current: Option<string>)

  /** Every run starts with no accounts and nobody logged in. */
  const Start := App(map[], None)

  predicate LoggedIn(app: App) {
    app.current.Some? && app.current.value in app.accounts
  }

  predicate Valid(app: App) {
    Registry.Valid(app.accounts) && (app.current.Some? ==> app.current.value in app.accounts)
  }

  function OpenAccount(app: App, name: string, passcode: string, opening: real,
                       draws: seq<int>): (r: Result<App, Registry.Error>)
    requires forall i :: 0 <= i < |draws| ==> Lowest <= draws[i] <= Highest
    ensures r.Ok? <==> Registry.OpenAccount(app.accounts, name, passcode, opening, draws).Ok?
    ensures r.Err? ==> r.error == Registry.OpenAccount(app.accounts, name, passcode, opening, draws).error
    ensures r.Ok? ==> r.value.current == app.current
    ensures r.Ok? ==> app.accounts.Keys < r.value.accounts.Keys
    ensures r.Ok? ==> r.value.accounts == Registry.OpenAccount(app.accounts, name, passcode, opening, draws).value.0
  {
    match Registry.OpenAccount(app.accounts, name, passcode, opening, draws)
    case Err(e) => Err(e)
    case Ok((m, k)) => Ok(App(m, app.current))
  }

  lemma OpenKeepsValid(app: App, name: string, passcode: string, opening: real, draws: seq<int>)
    requires forall i :: 0 <= i < |draws| ==> Lowest <= draws[i] <= Highest
    requires Valid(app)
    ensures Valid(OpenAccount(app, name, passcode, opening, draws).GetOr(app))
  {
  }

  /** A successful login makes the account current; a failed one changes
      nothing. */
  function Login(app: App, number: string, passcode: string): (r: Result<App, Registry.Error>)
    ensures r.Ok? <==> number in app.accounts && app.accounts[number].passcode == passcode
    ensures r.Err? ==> r.error == Registry.Login(app.accounts, number, passcode).error
    ensures r.Ok? ==> r.value.accounts == app.accounts && r.value.current == Some(number)
    ensures r.Ok? ==> LoggedIn(r.value)
    ensures r.Ok? && Valid(app) ==> Valid(r.value)
  {
    match Registry.Login(app.accounts, number, passcode)
    case Err(e) => Err(e)
    case Ok(_) => Ok(App(app.accounts, Some(number)))
  }

  function Logout(app: App): (r: App)
    ensures r.accounts == app.accounts && r.current == None
    ensures Valid(app) ==> Valid(r)
  {
    App(app.accounts, None)
  }

  /** "Close Account": when someone is logged in and the holder confirms,
      their entry is deleted and they are logged out; otherwise nothing
      happens. */
  function CloseCurrent(app: App, confirmed: bool): (r: App)
    requires app.current.Some? ==> app.current.value in app.accounts
    ensures r.current.Some? ==> r == app
    ensures !(app.current.Some? && confirmed) ==> r == app
    ensures app.current.Some? && confirmed ==>
      r.accounts.Keys == app.accounts.Keys - {app.current.value} && r.current == None
    ensures Registry.OthersUnchanged(app.accounts, r.accounts, app.current.GetOr(""))
    ensures Valid(app) ==> Valid(r)
  {
    match app.current
    case None => app
    case Some(k) =>
      if !confirmed then app
      else match Registry.Close(app.accounts, k)
        case Err(_) => app
        case Ok(m) => App(m, None)
  }

  /** Deposit, withdrawal or top-up on the current account. */
  function Act(app: App, op: Ledger.Op): (r: Result<App, Registry.Error>)
    requires LoggedIn(app)
    ensures r.Ok? <==> Ledger.Step(app.accounts[app.current.value], op).Ok?
    ensures r.Ok? ==> r.value.current == app.current && r.value.accounts.Keys == app.accounts.Keys
    ensures r.Ok? ==> Registry.OthersUnchanged(app.accounts, r.value.accounts, app.current.value)
    ensures r.Ok? ==> r.value.accounts[app.current.value]
                      == Ledger.Step(app.accounts[app.current.value], op).value
    ensures r.Err? ==> r.error == Registry.Rejected(Ledger.Step(app.accounts[app.current.value], op).error)
    ensures r.Ok? && Valid(app) ==> Valid(r.value)
  {
    match Registry.Transact(app.accounts, app.current.value, op)
    case Err(e) => Err(e)
    case Ok(m) => Ok(App(m, app.current))
  }

  /** "Send Money" from the current account to the account numbered `to`. */
  function Send(app: App, to: string, amount: real): (r: Result<App, Registry.Error>)
    requires LoggedIn(app)
    ensures r.Ok? <==> Registry.SendMoney(app.accounts, app.current.value, to, amount).Ok?
    ensures r.Err? ==> r.error == Registry.SendMoney(app.accounts, app.current.value, to, amount).error
    ensures r.Ok? ==> r.value.accounts == Registry.SendMoney(app.accounts, app.current.value, to, amount).value
    ensures r.Ok? ==> r.value.current == app.current && r.value.accounts.Keys == app.accounts.Keys
    ensures r.Ok? ==> to != app.current.value && to in app.accounts
    ensures r.Ok? ==> forall j | j in app.accounts && j != app.current.value && j != to ::
      r.value.accounts[j] == app.accounts[j]
    ensures r.Ok? ==> r.value.accounts[to].balance == app.accounts[to].balance + amount
    ensures r.Ok? ==> r.value.accounts[app.current.value].balance
                      == app.accounts[app.current.value].balance - amount
    ensures r.Ok? && Valid(app) ==> Valid(r.value)
  {
    match Registry.SendMoney(app.accounts, app.current.value, to, amount)
    case Err(e) => Err(e)
    case Ok(m) => Ok(App(m, app.current))
  }

  /** What the display shows for the current account: its balance and its
      most recent log entries, newest first. */
  function Display(app: App): (r: Option<(real, seq<Ledger.Entry>)>)
    requires app.current.Some? ==> app.current.value in app.accounts
    ensures r.Some? <==> app.current.Some?
    ensures r.Some? ==> r.value.0 == app.accounts[app.current.value].balance
    ensures r.Some? && Valid(app) ==> 0.0 <= r.value.0
    ensures r.Some? ==> r.value.1 == History.Recent(app.accounts[app.current.value].log)
    ensures r.Some? ==> |r.value.1| == if |app.accounts[app.current.value].log| < History.ShownEntries
                                      then |app.accounts[app.current.value].log| else History.ShownEntries
    ensures r.Some? ==> |r.value.1| <= |app.accounts[app.current.value].log|
    ensures r.Some? ==> forall i :: 0 <= i < |r.value.1| ==>
      r.value.1[i] == app.accounts[app.current.value].log[|app.accounts[app.current.value].log| - 1 - i]
  {
    match app.current
    case None => None
    case Some(k) => Some((app.accounts[k].balance, History.Recent(app.accounts[k].log)))
  }

  // ---------------------------------------------------------------------------
  // The app as a whole: every button press, in any order.

  datatype Command =
    | OpenCmd(name: string, passcode: string, opening: real, draws: seq<int>)
    | LoginCmd(number: string, passcode: string)
    | LogoutCmd
    | CloseCmd(confirmed: bool)
    | ActCmd(op: Ledger.Op)
    | SendCmd(to: string, amount: real)

  /** The generator only ever draws numbers in its range. */
  predicate WellFormed(cmd: Command) {
    cmd.OpenCmd? ==> forall i :: 0 <= i < |cmd.draws| ==> Lowest <= cmd.draws[i] <= Highest
  }

  /** The top-up button asks for the phone number first and does nothing
      when the answer is empty. */
  predicate Dismissed(cmd: Command) {
    cmd.ActCmd? && cmd.op.TopUpOp? && cmd.op.phone == ""
  }

  /** One button press. A refused request shows its error and leaves the
      state as it was; the money buttons do nothing while logged out. */
  function Handle(app: App, cmd: Command): (r: App)
    requires app.current.Some? ==> app.current.value in app.accounts
    requires WellFormed(cmd)
    ensures (cmd.ActCmd? || cmd.SendCmd?) && !LoggedIn(app) ==> r == app
    ensures Dismissed(cmd) ==> r == app
    ensures cmd.OpenCmd? && OpenAccount(app, cmd.name, cmd.passcode, cmd.opening, cmd.draws).Err? ==> r == app
    ensures cmd.LoginCmd? && Login(app, cmd.number, cmd.passcode).Err? ==> r == app
    ensures cmd.LoginCmd? && Login(app, cmd.number, cmd.passcode).Ok? ==>
      r.accounts == app.accounts && r.current == Some(cmd.number)
    ensures (cmd.ActCmd? && LoggedIn(app) && !Dismissed(cmd)
             && Ledger.Step(app.accounts[app.current.value], cmd.op).Err?) ==> r == app
    ensures (cmd.ActCmd? && LoggedIn(app) && !Dismissed(cmd)
             && Ledger.Step(app.accounts[app.current.value], cmd.op).Ok?) ==>
      app.current.value in r.accounts && r.accounts[app.current.value] == Ledger.Step(app.accounts[app.current.value], cmd.op).value
    ensures (cmd.SendCmd? && LoggedIn(app)
             && Registry.SendMoney(app.accounts, app.current.value, cmd.to, cmd.amount).Err?) ==> r == app
    ensures cmd.OpenCmd? && OpenAccount(app, cmd.name, cmd.passcode, cmd.opening, cmd.draws).Ok? ==>
      r == OpenAccount(app, cmd.name, cmd.passcode, cmd.opening, cmd.draws).value
    ensures (cmd.ActCmd? && LoggedIn(app) && !Dismissed(cmd) && Act(app, cmd.op).Ok?) ==>
      r == Act(app, cmd.op).value
    ensures (cmd.SendCmd? && LoggedIn(app) && Send(app, cmd.to, cmd.amount).Ok?) ==>
      r == Send(app, cmd.to, cmd.amount).value
    ensures cmd.LogoutCmd? ==> r == Logout(app)
    ensures cmd.CloseCmd? ==> r == CloseCurrent(app, cmd.confirmed)
  {
    match cmd
    case OpenCmd(name, passcode, opening, draws) =>
      OpenAccount(app, name, passcode, opening, draws).GetOr(app)
    case LoginCmd(number, passcode) => Login(app, number, passcode).GetOr(app)
    case LogoutCmd => Logout(app)
    case CloseCmd(confirmed) => CloseCurrent(app, confirmed)
    case ActCmd(op) =>
      if !LoggedIn(app) || Dismissed(cmd) then app else Act(app, op).GetOr(app)
    case SendCmd(to, amount) => if LoggedIn(app) then Send(app, to, amount).GetOr(app) else app
  }

  lemma HandleKeepsValid(app: App, cmd: Command)
    requires Valid(app) && WellFormed(cmd)
    ensures Valid(Handle(app, cmd))
  {
  }

  /** The state after a whole session of button presses from `app`. */
  function Replay(app: App, cmds: seq<Command>): App
    requires Valid(app)
    requires forall i :: 0 <= i < |cmds| ==> WellFormed(cmds[i])
    decreases |cmds|
  {
    if |cmds| == 0 then app
    else
      HandleKeepsValid(app, cmds[0]);
      Replay(Handle(app, cmds[0]), cmds[1..])
  }

  /** Whatever the user does, every account stays filed under its own
      five-digit number, holder names stay unique, no balance goes negative
      and the current account, if any, exists. */
  lemma {:induction false} ReplayKeepsValid(app: App, cmds: seq<Command>)
    requires Valid(app)
    requires forall i :: 0 <= i < |cmds| ==> WellFormed(cmds[i])
    ensures Valid(Replay(app, cmds))
    ensures forall k | k in Replay(app, cmds).accounts :: 0.0 <= Replay(app, cmds).accounts[k].balance
    decreases |cmds|
  {
    if |cmds| > 0 {
      HandleKeepsValid(app, cmds[0]);
      ReplayKeepsValid(Handle(app, cmds[0]), cmds[1..]);
    }
  }

  lemma StartIsValid()
    ensures Valid(Start) && !LoggedIn(Start)
  {
  }
}
