# Greeter contract model

This project models the ink! smart contract `Greeter` of Paid-Getter
(`contracts/src/greeter/lib.rs`). The contract keeps three storage fields:
a greeting `message`, a `locked` flag and an `i32` `count`. It has two
constructors, `new` and `default`, three read-only messages, `greet`,
`get_lock_state` and `get_balance`, and two payable messages.

- `set_message(new_message, value)` rejects a `value` below 100. While the
  contract is locked it only emits a "Contract is Locked!" event. While it is
  unlocked it increments `count` and stores the new message. The exception is
  the winning case, a count above 1 that is divisible by 5: then it stores
  "You won!", locks the contract and tries to transfer the whole contract
  balance to the caller through the private `withdraw_all`.
- `unlock(value)` emits "Contract is Not Locked!" whenever it is called while
  unlocked. It then rejects a `value` below 1000, and otherwise clears the lock.

The project has three modules.

- `GreeterSpec` (`greeter_spec.dfy`) holds the values. It defines the
  storage, the `Error`, `Result` and event types, and the part of the chain
  the contract sees (`Env`: its balance and the event log). The constructors
  are functions that return a `Storage`. Each message is a function from the
  old storage and environment to the new ones and the reply, and its contract
  states that message's rules case by case. The queries are plain reads. What
  they answer after each constructor and message is stated in the contracts of
  `New`, `Default`, `SetMessage`, `Unlock` and `WithdrawAll`.
- `GreeterTraces` (`greeter_traces.dfy`) is about sequences of calls. Over a
  run of calls it proves these facts:
  - `count` never decreases;
  - `count` grows by exactly the number of calls that pass `set_message`'s guards while unlocked;
  - the event log is only appended to;
  - apart from incoming payments, which the model leaves out, the contract
    balance changes only through a paid-out win;
  - from `default()`, a locked contract always greets with "You won!".
- `GreeterContract` (`greeter_contract.dfy`) holds the class `Greeter`. Its
  fields are `message`, `locked` and `count`, plus the contract balance and a
  ghost event log. Its methods update those fields in place and are proved to
  leave exactly the state the matching `GreeterSpec` function gives. The
  module ends with the three unit tests of `lib.rs` (lines 143-172), written
  as client methods. Each returns what `greet` answered, and its postcondition
  states the values the test asserts. `SetMessageWorks` leaves out the test's
  balance check.

The chain is abstracted in three ways.

- The contract balance is a field.
- Whether `transfer` succeeds is a boolean parameter, the chain's answer.
- `emit_event` appends to the event log.

The `i32` width of `count` is explicit. The model assumes the contract is
built with overflow checks on. No build manifest is part of this model, so
this is an assumption, not something the code shows. Under that assumption, `self.count += 1` at `i32::MAX` panics, and the call ends
`Trapped` with nothing changed. The increment is the first update the call
makes, so nothing has to be undone. A winning count is never `i32::MAX`
(`i32::MAX % 5 == 2`), so a winning call never traps.

## Model

| member | source | states |
|---|---|---|
| `GreeterSpec.New` | contracts/src/greeter/lib.rs:43-49 | `new` stores exactly the given message, lock flag and count; `greet` then returns the message and `get_lock_state` the flag |
| `GreeterSpec.Default` | contracts/src/greeter/lib.rs:53-58 | `default` is `new("Hello ink!", false, 0)`: greets "Hello ink!", unlocked, count 0 |
| `GreeterSpec.IsWinning` | contracts/src/greeter/lib.rs:82 | the winning condition `count > 1 && count % 5 == 0` holds exactly for the multiples of 5 from 5 on |
| `GreeterSpec.Increment` | contracts/src/greeter/lib.rs:83 | `self.count += 1` on an `i32` succeeds exactly below `i32::MAX` and then yields count + 1 |
| `GreeterSpec.WinningCountHasSuccessor` | contracts/src/greeter/lib.rs:82-83 | a count meeting the winning condition is below `i32::MAX`, so the winning increment cannot overflow |
| `GreeterSpec.WithdrawAll` | contracts/src/greeter/lib.rs:125-134 | never touches storage or events; while unlocked it does nothing and returns `Ok`; while locked it returns `Ok` iff the transfer succeeds, and then the balance is 0; any error is `TransferFailed` with the environment unchanged |
| `GreeterSpec.SetMessage` | contracts/src/greeter/lib.rs:72-100 | value < 100: `Err(InsufficientBalance)`, nothing changes. Locked: `Ok`, storage and balance unchanged, exactly one "Contract is Locked!" event. Unlocked and not winning: the new message is stored, count + 1, still unlocked, `Ok`. Count at `i32::MAX`: traps, nothing changes. Winning: "You won!", locked, count + 1, new message discarded, the transfer is attempted; it returns `Ok` with balance 0 or `Err(TransferFailed)` with the storage changes kept |
| `GreeterSpec.Unlock` | contracts/src/greeter/lib.rs:107-123 | emits "Contract is Not Locked!" iff called while unlocked, whatever the value; returns `Ok` iff value >= 1000, otherwise `Err(InsufficientBalance)`; the lock is afterwards set iff it was set and value < 1000; message, count and balance unchanged |
| `GreeterTraces.Next` | contracts/src/greeter/lib.rs:72-123 | for one call of either message: count moves only through a `set_message` that passes its guards while unlocked, and by exactly 1; the lock is taken only by a winning `set_message`, which leaves "You won!"; apart from incoming payments, which the model leaves out, the balance changes only on a paid-out win, and to 0; at most one event is appended, and it is a `Locked` notice |
| `GreeterTraces.Run` | contracts/src/greeter/lib.rs:72-123 | the configurations of a sequence of calls: one more than there are calls, starting with the initial one |
| `GreeterTraces.RunIsStepwise` | contracts/src/greeter/lib.rs:72-123 | every configuration of a run is the previous one after the corresponding call |
| `GreeterTraces.CountTally` | contracts/src/greeter/lib.rs:82-96 | after any sequence of calls, count equals its initial value plus the number of calls that passed `set_message`'s guards while unlocked |
| `GreeterTraces.CountNeverDecreases` | contracts/src/greeter/lib.rs:82-122 | along any run, count at an earlier point is at most count at a later point |
| `GreeterTraces.EventsOnlyAppended` | contracts/src/greeter/lib.rs:94-112 | along any run the initial event log is a prefix of the final one; at most one event is added per call, each a `Locked` notice (no `Greeted` event is ever emitted) |
| `GreeterTraces.NextKeepsWonInvariant` | contracts/src/greeter/lib.rs:82-122 | one call preserves: count >= 0, and if locked then the message is "You won!" and count is above 5 with count % 5 == 1 |
| `GreeterTraces.RunKeepsWonInvariant` | contracts/src/greeter/lib.rs:82-122 | every configuration of a run that starts in that invariant satisfies it |
| `GreeterTraces.DefaultRunsKeepWonInvariant` | contracts/src/greeter/lib.rs:53-58 | from `default()` and any environment, every reachable storage has count >= 0, and whenever it is locked `greet` returns "You won!" |
| `GreeterTraces.SixthMessageWins` | contracts/src/greeter/lib.rs:82-91 | from `default()`, the first five `set_message(m, 100)` calls store `m` with counts 1 to 5 and the sixth stores "You won!", locked, count 6 |
| `GreeterContract.Greeter.New` | contracts/src/greeter/lib.rs:43-49 | the object's storage is `GreeterSpec.New` of the arguments; the event log starts empty |
| `GreeterContract.Greeter.Default` | contracts/src/greeter/lib.rs:53-58 | the object's storage is `GreeterSpec.Default()`; the event log starts empty |
| `GreeterContract.Greeter.GetBalance` | contracts/src/greeter/lib.rs:60-63 | a read-only function whose answer is `GreeterSpec.GetBalance` of the object's environment. What that query answers is proved elsewhere: 0 after a paid-out win (`GreeterSpec.SetMessage`, `GreeterSpec.WithdrawAll`), and apart from incoming payments, which the model leaves out, unchanged by every other call (`GreeterTraces.Next`) |
| `GreeterContract.Greeter.Greet` | contracts/src/greeter/lib.rs:65-69 | a read-only function whose answer is `GreeterSpec.Greet` of the object's storage. What that query answers is proved elsewhere: the given message after `new` (`GreeterSpec.New`), "Hello ink!" after `default` (`GreeterSpec.Default`), and "You won!" whenever a contract started by `default` is locked (`GreeterTraces.DefaultRunsKeepWonInvariant`) |
| `GreeterContract.Greeter.GetLockState` | contracts/src/greeter/lib.rs:102-105 | a read-only function whose answer is `GreeterSpec.GetLockState` of the object's storage. What that query answers is proved elsewhere: the given flag after `new` (`GreeterSpec.New`), false after `default` (`GreeterSpec.Default`), and after `unlock` it is true iff it was true and the value was below 1000 (`GreeterSpec.Unlock`) |
| `GreeterContract.Greeter.SetMessage` | contracts/src/greeter/lib.rs:72-100 | the in-place updates leave exactly the storage, environment and reply of `GreeterSpec.SetMessage` |
| `GreeterContract.Greeter.Unlock` | contracts/src/greeter/lib.rs:107-123 | the in-place updates leave exactly the storage, environment and reply of `GreeterSpec.Unlock` |
| `GreeterContract.Greeter.WithdrawAll` | contracts/src/greeter/lib.rs:125-134 | the in-place updates leave exactly the storage, environment and reply of `GreeterSpec.WithdrawAll` |
| `GreeterContract.NewWorks` | contracts/src/greeter/lib.rs:143-150 | the unit test `new_works`: on an object built by `new("Hello ink! v4", false, 0)`, `greet` answers "Hello ink! v4", for any endowment |
| `GreeterContract.DefaultNewWorks` | contracts/src/greeter/lib.rs:152-157 | the unit test `default_new_works`: on an object built by `default()`, `greet` answers "Hello ink!", for any endowment |
| `GreeterContract.SetMessageWorks` | contracts/src/greeter/lib.rs:159-172 | the unit test `set_message_works`: on `new("gm ink!", false, 0)`, `greet` answers "gm ink!", then `set_message("gn", 100)` returns `Ok` and `greet` answers "gn", whatever the chain answers to a transfer; it omits the balance assertion at lib.rs:170 |

## Left out

- Reverting on error: on the chain, a message that returns `Err` may have its
  storage changes rolled back. The model follows the code literally: a winning
  `set_message` whose transfer fails keeps "You won!", the lock and the
  incremented count, and returns `Err(TransferFailed)`. The event log is kept
  as the code writes it too: `unlock` with a value below 1000 on an unlocked
  contract keeps its "Contract is Not Locked!" event and returns
  `Err(InsufficientBalance)`.
- The caller and the recipient of the transfer: `caller()` is not modelled. Only
  the effect on the contract balance is kept, which drops to 0 when the transfer succeeds.
- Whether a transfer succeeds is not computed. Existential-deposit rules and the
  recipient's account are chain behaviour, so success is a parameter.
- Payments reaching the contract: `transferred_value()` and the chain crediting
  the balance are not modelled. The guards test the `value` argument, as the code does.
- GreeterContract.SetMessageWorks: omits the balance assertion of the unit test
  `set_message_works` (`lib.rs:168-170`). That assertion rests on the chain
  crediting the payment, which the model does not do.
- The initial balance: the constructors take an extra `endowment` argument,
  which is the balance the chain gives the contract when it is instantiated.
- GreeterSpec.Increment: does not model a build without overflow checks, where
  `count += 1` at `i32::MAX` would wrap to `i32::MIN`. Overflow checks are taken to be on.
- `debug_println!` output, SCALE encoding and decoding, and `TypeInfo`
  derivation. None of these affects storage or replies.
- The ink! framework's `LangError`: a call whose input cannot be decoded answers
  `Err(LangError::CouldNotReadInput)`. ink! produces that answer before any of
  the contract's code runs, so the model starts from decoded arguments.
- The generated TypeScript bindings under `contracts/typed-contracts/` and the
  React component in `frontend/`. They forward calls to an external SDK and
  hold no contract logic. The form's 1-90 character limit on the new message is
  a client-side schema, and the contract itself accepts any string.
