/** The `Greeter` contract as an object: the three storage fields are updated
    in place by its messages, each proved to do what the matching function of
    `GreeterSpec` says. */
module GreeterContract {
  import opened GreeterSpec

  class Greeter {
    // the `#[ink(storage)]` fields
    var message: string
    var locked: bool
    var count: i32

    // what the contract sees of the chain: `self.env().balance()` and the
    // events emitted through `self.env().emit_event(..)`
    var balance: u128
    ghost var events: seq<Event>

    ghost function StorageView(): (s: Storage)
      reads this
    {
      Storage(message, locked, count)
    }

    ghost function EnvView(): (e: Env)
      reads this
    {
      Env(balance, events)
    }

    /** `new(message, locked, count)`; `endowment` is the balance the chain
        gives the contract at instantiation. */
    constructor New(message: string, locked: bool, count: i32, endowment: u128)
      ensures StorageView() == GreeterSpec.New(message, locked, count)
      ensures EnvView() == Env(endowment, [])
    {
      this.message := message;
      this.locked := locked;
      this.count := count;
      balance := endowment;
      events := [];
    }

    /** `default()`. */
    constructor Default(endowment: u128)
      ensures StorageView() == GreeterSpec.Default()
      ensures EnvView() == Env(endowment, [])
    {
      message := DEFAULT_MESSAGE;
      locked := false;
      count := 0;
      balance := endowment;
      events := [];
    }

    function GetBalance(): (r: u128)
      reads this
      ensures r == GreeterSpec.GetBalance(EnvView())
    {
      balance
    }

    function Greet(): (r: string)
      reads this
      ensures r == GreeterSpec.Greet(StorageView())
    {
      message
    }

    function GetLockState(): (r: bool)
      reads this
      ensures r == GreeterSpec.GetLockState(StorageView())
    {
      locked
    }

    method SetMessage(newMessage: string, value: u128, transferOk: bool) returns (r: Reply)
      modifies this
      ensures var step := GreeterSpec.SetMessage(old(StorageView()), old(EnvView()), newMessage, value, transferOk);
        StorageView() == step.storage && EnvView() == step.env && r == step.reply
    {
      if value < MESSAGE_FEE {
        return Returned(Err(InsufficientBalance));
      }
      if !locked {
        if count > 1 && count % 5 == 0 {
          if count == I32_MAX {
            return Trapped;  // `self.count += 1` overflows and panics
          }
          count := count + 1;
          message := WON_MESSAGE;
          locked := true;
          var w := WithdrawAll(transferOk);
          if w.Err? {
            return Returned(w);
          }
        } else {
          if count == I32_MAX {
            return Trapped;  // `self.count += 1` overflows and panics
          }
          count := count + 1;
          message := newMessage;
        }
      } else {
        events := events + [Locked(LOCKED_NOTICE)];
      }
      return Returned(Ok);
    }

    method Unlock(value: u128) returns (r: Result)
      modifies this
      ensures var step := GreeterSpec.Unlock(old(StorageView()), old(EnvView()), value);
        StorageView() == step.storage && EnvView() == step.env && r == step.reply
    {
      if !locked {
        events := events + [Locked(NOT_LOCKED_NOTICE)];
      }
      if value < UNLOCK_FEE {
        return Err(InsufficientBalance);
      }
      locked := false;
      return Ok;
    }

    /** `withdraw_all`; `transferOk` is the chain's answer to the transfer. */
    method WithdrawAll(transferOk: bool) returns (r: Result)
      modifies this
      ensures var step := GreeterSpec.WithdrawAll(old(StorageView()), old(EnvView()), transferOk);
        StorageView() == step.storage && EnvView() == step.env && r == step.reply
    {
      if locked {
        var amount := balance;
        if !transferOk {
          return Err(TransferFailed);
        }
        balance := balance - amount;
      }
      return Ok;
    }
  }

  /** The unit test `new_works`: `greet` on a fresh `new(message, false, 0)`
      answers `message`. */
  method NewWorks(endowment: u128) returns (greeting: string)
    ensures greeting == "Hello ink! v4"
  {
    var message := "Hello ink! v4";
    var greeter := new Greeter.New(message, false, 0, endowment);
    greeting := greeter.Greet();
  }

  /** The unit test `default_new_works`: `greet` on a fresh `default()`
      answers "Hello ink!". */
  method DefaultNewWorks(endowment: u128) returns (greeting: string)
    ensures greeting == "Hello ink!"
  {
    var greeter := new Greeter.Default(endowment);
    greeting := greeter.Greet();
  }

  /** The unit test `set_message_works`, without its balance check, which
      depends on the test chain crediting the payment: on a fresh
      `new("gm ink!", false, 0)`, `greet` answers "gm ink!", then
      `set_message("gn", 100)` succeeds and `greet` answers "gn". */
  method SetMessageWorks(endowment: u128, transferOk: bool) returns (before: string, reply: Reply, after: string)
    ensures before == "gm ink!" && reply == Returned(Ok) && after == "gn"
  {
    var greeter := new Greeter.New("gm ink!", false, 0, endowment);
    before := greeter.Greet();
    reply := greeter.SetMessage("gn", 100, transferOk);
    after := greeter.Greet();
  }
}
