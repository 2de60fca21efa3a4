/** One ledger entry (`BankAccount`): identity, credentials, a balance and an
    append-only transaction log, with the four guarded operations deposit,
    withdraw, transfer and mobile top-up. Amounts are exact `real`s. */
module Ledger {
  import opened Outcomes

  /** One line of the transaction log, kept structured instead of formatted. */
  datatype Entry =
    | Deposited(amount: real)
    | Withdrew(amount: real)
    | Sent(amount: real, toName: string)
    | Received(amount: real, fromName: string)
    | TopUp(amount: real, phone: string)

  /** The three messages the ledger raises. */
  datatype Error =
    | AmountNotPositive   // "Amount must be positive"
    | InvalidTransfer     // "Invalid transfer": non-positive amount or target is self
    | NotEnoughBalance    // "Not enough balance"

  datatype Account = Account(
    number: string,
    name: string,
    passcode: string,
    balance: real,
    log: seq<Entry>)

  /** A fresh ledger entry: the given opening balance and an empty log. */
  function Open(number: string, name: string, passcode: string, balance: real := 0.0): (a: Account)
    ensures a.number == number && a.name == name && a.passcode == passcode
    ensures a.balance == balance && a.log == []
  {
    Account(number, name, passcode, balance, [])
  }

  /** `b` is `a` with the same account number, holder name and passcode. */
  predicate SameHolder(a: Account, b: Account) {
    a.number == b.number && a.name == b.name && a.passcode == b.passcode
  }

  /** `b` is `a` after one more log entry `e`, with every other field kept. */
  predicate Appended(a: Account, b: Account, e: Entry) {
    SameHolder(a, b) && b.log == a.log + [e]
  }

  // ---------------------------------------------------------------------------
  // Reference semantics of the log: what each entry does to the balance.

  /** The signed change in balance that a log entry records. */
  function Effect(e: Entry): real {
    match e
    case Deposited(x) => x
    case Withdrew(x) => -x
    case Sent(x, _) => -x
    case Received(x, _) => x
    case TopUp(x, _) => -x
  }

  /** The total change in balance recorded by a stretch of the log. */
  function Net(entries: seq<Entry>): real {
    if |entries| == 0 then 0.0
    else Net(entries[..|entries| - 1]) + Effect(entries[|entries| - 1])
  }

  lemma {:induction false} NetAppend(s: seq<Entry>, t: seq<Entry>)
    ensures Net(s + t) == Net(s) + Net(t)
    decreases |t|
  {
    if |t| == 0 {
      assert s + t == s;
    } else {
      var t' := t[..|t| - 1];
      assert (s + t)[..|s + t| - 1] == s + t';
      assert (s + t)[|s + t| - 1] == t[|t| - 1];
      NetAppend(s, t');
    }
  }

  // ---------------------------------------------------------------------------
  // The four operations.

  function Deposit(a: Account, amount: real): (r: Result<Account, Error>)
    ensures r.Ok? <==> amount > 0.0
    ensures r.Err? ==> r.error == AmountNotPositive
    ensures r.Ok? ==> Appended(a, r.value, Deposited(amount))
    ensures r.Ok? ==> r.value.balance == a.balance + amount
  {
    if amount <= 0.0 then Err(AmountNotPositive)
    else Ok(a.(balance := a.balance + amount, log := a.log + [Deposited(amount)]))
  }

  function Withdraw(a: Account, amount: real): (r: Result<Account, Error>)
    ensures r.Ok? <==> 0.0 < amount <= a.balance
    ensures amount <= 0.0 ==> r == Err(AmountNotPositive)
    ensures 0.0 < amount && a.balance < amount ==> r == Err(NotEnoughBalance)
    ensures r.Ok? ==> Appended(a, r.value, Withdrew(amount))
    ensures r.Ok? ==> r.value.balance == a.balance - amount
    ensures r.Ok? ==> 0.0 <= r.value.balance
  {
    if amount <= 0.0 then Err(AmountNotPositive)
    else if amount > a.balance then Err(NotEnoughBalance)
    else Ok(a.(balance := a.balance - amount, log := a.log + [Withdrew(amount)]))
  }

  /** Moves `amount` from `src` to `dst`. The source compares the two objects
      by identity; an account is identified here by its account number. */
  function Transfer(src: Account, dst: Account, amount: real): (r: Result<(Account, Account), Error>)
    ensures r.Ok? <==> 0.0 < amount <= src.balance && dst.number != src.number
    ensures amount <= 0.0 || dst.number == src.number ==> r == Err(InvalidTransfer)
    ensures (0.0 < amount && dst.number != src.number && src.balance < amount) ==>
      r == Err(NotEnoughBalance)
    ensures r.Ok? ==> Appended(src, r.value.0, Sent(amount, dst.name))
    ensures r.Ok? ==> Appended(dst, r.value.1, Received(amount, src.name))
    ensures r.Ok? ==> r.value.0.balance == src.balance - amount
    ensures r.Ok? ==> r.value.1.balance == dst.balance + amount
    ensures r.Ok? ==> r.value.0.balance + r.value.1.balance == src.balance + dst.balance
  {
    if amount <= 0.0 || dst.number == src.number then Err(InvalidTransfer)
    else if amount > src.balance then Err(NotEnoughBalance)
    else
      var src' := src.(balance := src.balance - amount,
                       log := src.log + [Sent(amount, dst.name)]);
      var dst' := dst.(balance := dst.balance + amount,
                       log := dst.log + [Received(amount, src.name)]);
      Ok((src', dst'))
  }

  function MobileTopUp(a: Account, amount: real, phone: string): (r: Result<Account, Error>)
    ensures r.Ok? <==> 0.0 < amount <= a.balance
    ensures amount <= 0.0 ==> r == Err(AmountNotPositive)
    ensures 0.0 < amount && a.balance < amount ==> r == Err(NotEnoughBalance)
    ensures r.Ok? ==> Appended(a, r.value, TopUp(amount, phone))
    ensures r.Ok? ==> r.value.balance == a.balance - amount
    ensures r.Ok? ==> 0.0 <= r.value.balance
  {
    if amount <= 0.0 then Err(AmountNotPositive)
    else if amount > a.balance then Err(NotEnoughBalance)
    else Ok(a.(balance := a.balance - amount, log := a.log + [TopUp(amount, phone)]))
  }

  // ---------------------------------------------------------------------------
  // Single-account operations as data, and a run of them.

  datatype Op =
    | DepositOp(amount: real)
    | WithdrawOp(amount: real)
    | TopUpOp(amount: real, phone: string)

  function Step(a: Account, op: Op): (r: Result<Account, Error>)
    ensures r.Ok? ==> SameHolder(a, r.value) && |r.value.log| == |a.log| + 1
    ensures r.Ok? ==> r.value.log[..|a.log|] == a.log
    ensures r.Ok? ==> r.value.balance == a.balance + Effect(r.value.log[|a.log|])
    ensures r.Err? ==> r.error != InvalidTransfer
    ensures 0.0 <= a.balance ==> r.Ok? ==> 0.0 <= r.value.balance
  {
    match op
    case DepositOp(x) => Deposit(a, x)
    case WithdrawOp(x) => Withdraw(a, x)
    case TopUpOp(x, phone) => MobileTopUp(a, x, phone)
  }

  /** Applies `ops` in order; a rejected operation reports its error and
      leaves the account as it was, and the run carries on. */
  function Run(a: Account, ops: seq<Op>): Account
    decreases |ops|
  {
    if |ops| == 0 then a
    else match Step(a, ops[0])
      case Ok(a') => Run(a', ops[1..])
      case Err(_) => Run(a, ops[1..])
  }

  /** After any run: the holder is unchanged, the old log is a prefix of the
      new one, the balance moved by exactly what the new entries record, and
      a non-negative balance stays non-negative. */
  lemma {:induction false} RunKeepsLedger(a: Account, ops: seq<Op>)
    ensures SameHolder(a, Run(a, ops))
    ensures |a.log| <= |Run(a, ops).log| <= |a.log| + |ops|
    ensures Run(a, ops).log[..|a.log|] == a.log
    ensures Run(a, ops).balance == a.balance + Net(Run(a, ops).log[|a.log|..])
    ensures 0.0 <= a.balance ==> 0.0 <= Run(a, ops).balance
    decreases |ops|
  {
    if |ops| == 0 {
      assert a.log[|a.log|..] == [];
    } else {
      match Step(a, ops[0])
      case Err(_) => RunKeepsLedger(a, ops[1..]);
      case Ok(a1) =>
        RunKeepsLedger(a1, ops[1..]);
        var b := Run(a1, ops[1..]);
        var e := a1.log[|a.log|];
        assert a1.log == a.log + [e];
        assert b.log[..|a1.log|] == a1.log;
        assert b.log[..|a.log|] == a.log;
        assert b.log[|a.log|..] == [e] + b.log[|a1.log|..];
        NetAppend([e], b.log[|a1.log|..]);
        assert Net([e]) == Effect(e);
    }
  }

  /** A successful transfer's two new log entries cancel out. */
  lemma TransferEntriesCancel(src: Account, dst: Account, amount: real)
    requires Transfer(src, dst, amount).Ok?
    ensures var (s, d) := Transfer(src, dst, amount).value;
            Net(s.log[|src.log|..]) + Net(d.log[|dst.log|..]) == 0.0
  {
  }
}
