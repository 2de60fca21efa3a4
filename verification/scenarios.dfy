/** The concrete scenarios of the unit tests, restated about the model:
    Alice opens with 1000 and Bob with 500. */
module Scenarios {
  import opened Outcomes
  import opened Ledger
  import Registry

  function Alice(): Account { Open("12345", "Alice", "1111", 1000.0) }
  function Bob(): Account { Open("54321", "Bob", "2222", 500.0) }

  lemma DepositScenarios()
    ensures Deposit(Alice(), 200.0).Ok?
    ensures Deposit(Alice(), 200.0).value.balance == 1200.0
    ensures Deposit(Alice(), 200.0).value.log == [Deposited(200.0)]
    ensures Deposit(Alice(), -100.0) == Err(AmountNotPositive)
  {
  }

  lemma WithdrawScenarios()
    ensures Withdraw(Alice(), 300.0).Ok?
    ensures Withdraw(Alice(), 300.0).value.balance == 700.0
    ensures Withdraw(Alice(), 300.0).value.log == [Withdrew(300.0)]
    ensures Withdraw(Bob(), 600.0) == Err(NotEnoughBalance)
    ensures Withdraw(Alice(), -10.0) == Err(AmountNotPositive)
  {
  }

  lemma TransferScenarios()
    ensures Transfer(Alice(), Bob(), 400.0).Ok?
    ensures Transfer(Alice(), Bob(), 400.0).value.0.balance == 600.0
    ensures Transfer(Alice(), Bob(), 400.0).value.1.balance == 900.0
    ensures Transfer(Alice(), Bob(), 400.0).value.0.log == [Sent(400.0, "Bob")]
    ensures Transfer(Alice(), Bob(), 400.0).value.1.log == [Received(400.0, "Alice")]
    ensures Transfer(Alice(), Alice(), 100.0) == Err(InvalidTransfer)
    ensures Transfer(Bob(), Alice(), 1000.0) == Err(NotEnoughBalance)
    ensures Transfer(Alice(), Bob(), -50.0) == Err(InvalidTransfer)
  {
  }

  lemma TopUpScenarios()
    ensures MobileTopUp(Alice(), 100.0, "17123456").Ok?
    ensures MobileTopUp(Alice(), 100.0, "17123456").value.balance == 900.0
    ensures MobileTopUp(Alice(), 100.0, "17123456").value.log == [TopUp(100.0, "17123456")]
    ensures MobileTopUp(Bob(), 1000.0, "17123456") == Err(NotEnoughBalance)
    ensures MobileTopUp(Alice(), -10.0, "17123456") == Err(AmountNotPositive)
  {
  }

  /** Alice is already on file under 12345: a second Alice, a three-digit
      passcode and an opening balance of 499 are each refused. */
  lemma OpenAccountScenarios()
    ensures var accounts := map["12345" := Alice()];
            && Registry.OpenAccount(accounts, "Alice", "9999", 800.0, [54321])
                 == Err(Registry.InvalidOrDuplicateName)
            && Registry.OpenAccount(accounts, "Bob", "222", 800.0, [54321])
                 == Err(Registry.InvalidPasscode)
            && Registry.OpenAccount(accounts, "Bob", "2222", 499.0, [54321])
                 == Err(Registry.BelowMinimumBalance)
  {
    var accounts := map["12345" := Alice()];
    assert accounts["12345"].name == "Alice";
    assert !Registry.ValidPasscode("222");
  }
}
