/** The `Greeter` ink! contract as values: its storage, its errors and events,
    the part of the chain it observes, and one function per message saying
    what a call to that message leaves behind. */
module GreeterSpec {

  /** Rust's `i32`, the type of the `count` storage field. */
  const I32_MIN: int := -0x8000_0000
  const I32_MAX: int := 0x7fff_ffff
  type i32 = x: int | I32_MIN <= x <= I32_MAX

  /** ink!'s `Balance`, a `u128`. */
  const U128_MAX: int := 0xffff_ffff_ffff_ffff_ffff_ffff_ffff_ffff
  type u128 = x: int | 0 <= x <= U128_MAX

  /** ink!'s `AccountId`, 32 raw bytes. */
  type AccountId = x: seq<bv8> | |x| == 32 witness seq(32, _ => 0)

  const DEFAULT_MESSAGE: string := "Hello ink!"
  const WON_MESSAGE: string := "You won!"
  const LOCKED_NOTICE: string := "Contract is Locked!"
  const NOT_LOCKED_NOTICE: string := "Contract is Not Locked!"

  /** The smallest `value` that `set_message` and `unlock` accept. */
  const MESSAGE_FEE: int := 100
  const UNLOCK_FEE: int := 1000

  datatype Option<T> = None | Some(value: T)

  /** The two `#[ink(event)]` types; `Greeted` is declared but no message emits it. */
  datatype Event =
    | Greeted(from: Option<AccountId>, message: string)
    | Locked(message: string)

  datatype Error = InsufficientBalance | TransferFailed

  /** The contract's `Result<()>`. */
  datatype Result = Ok | Err(error: Error)

  /** How a call to a message ends: it returns a `Result`, or it panics and the
      call traps (the runtime then discards whatever the call did). */
  datatype Reply = Returned(result: Result) | Trapped

  /** The `#[ink(storage)]` struct. */
  datatype Storage = Storage(message: string, locked: bool, count: i32)

  /** What the contract sees of the chain: its own balance and the events
      emitted so far, oldest first. */
  datatype Env = Env(balance: u128, events: seq<Event>)

  /** The storage and environment after a call, and what the call answered. */
  datatype Step<R> = Step(storage: Storage, env: Env, reply: R)

  /** The condition under which an unlocked `set_message` pays out. `count > 1`
      is tested first, so `%` only ever sees a positive count, where Rust's
      truncating remainder and Dafny's Euclidean one agree. The winning
      counts are the positive multiples of 5 from 5 on. */
  predicate IsWinning(count: i32): (r: bool)
    ensures r <==> 5 <= count && count % 5 == 0
  {
    count > 1 && count % 5 == 0
  }

  /** `count += 1` on an `i32` with overflow checks: `None` is the panic. */
  function Increment(count: i32): (r: Option<i32>)
    ensures r.Some? <==> count < I32_MAX
    ensures r.Some? ==> r.value == count + 1
  {
    if count == I32_MAX then None else Some(count + 1)
  }

  /** A winning count is never `i32::MAX`, so the winning increment cannot panic. */
  lemma WinningCountHasSuccessor(count: i32)
    requires IsWinning(count)
    ensures count < I32_MAX
  {
  }

  /** The constructor `new`: stores exactly the three given values. */
  function New(message: string, locked: bool, count: i32): (s: Storage)
    ensures Greet(s) == message && GetLockState(s) == locked && s.count == count
  {
    Storage(message, locked, count)
  }

  /** The constructor `default`: `new` with the default greeting, unlocked, count 0. */
  function Default(): (s: Storage)
    ensures s == New(DEFAULT_MESSAGE, false, 0)
    ensures Greet(s) == "Hello ink!" && !GetLockState(s) && s.count == 0
  {
    New(DEFAULT_MESSAGE, false, 0)
  }

  /** The query `get_balance`. */
  function GetBalance(e: Env): (r: u128)
  {
    e.balance
  }

  /** The query `greet`. */
  function Greet(s: Storage): (r: string)
  {
    s.message
  }

  /** The query `get_lock_state`. */
  function GetLockState(s: Storage): (r: bool)
  {
    s.locked
  }

  /** The private `withdraw_all`: while locked, transfer the whole balance to
      the caller; `transferOk` is the chain's answer to that transfer. */
  function WithdrawAll(s: Storage, e: Env, transferOk: bool): (r: Step<Result>)
    ensures r.storage == s && r.env.events == e.events
    ensures !s.locked ==> r.env == e && r.reply == Ok
    ensures s.locked ==> (r.reply == Ok <==> transferOk)
    ensures s.locked && transferOk ==> GetBalance(r.env) == 0
    ensures r.reply.Err? ==> r.reply.error == TransferFailed && r.env == e
  {
    if s.locked then
      var amount := GetBalance(e);
      if transferOk then Step(s, Env(e.balance - amount, e.events), Ok)
      else Step(s, e, Err(TransferFailed))
    else
      Step(s, e, Ok)
  }

  /** The payable message `set_message(new_message, value)`. */
  function SetMessage(s: Storage, e: Env, newMessage: string, value: u128, transferOk: bool): (r: Step<Reply>)
    // too small a payment: rejected, nothing changes
    ensures value < MESSAGE_FEE ==> r == Step(s, e, Returned(Err(InsufficientBalance)))
    // locked: accepted, storage and balance untouched, one "locked" notice emitted
    ensures value >= MESSAGE_FEE && s.locked ==>
      r == Step(s, Env(e.balance, e.events + [Locked(LOCKED_NOTICE)]), Returned(Ok))
    // unlocked and not winning: the new message is stored and count goes up by one
    ensures value >= MESSAGE_FEE && !s.locked && !IsWinning(s.count) && s.count < I32_MAX ==>
      r == Step(Storage(newMessage, false, s.count + 1), e, Returned(Ok))
    // ... unless the increment overflows, which traps and changes nothing
    ensures value >= MESSAGE_FEE && !s.locked && s.count == I32_MAX ==> r == Step(s, e, Trapped)
    // unlocked and winning: "You won!", locked, count up by one, new message discarded,
    // and the transfer of the whole balance is always attempted
    ensures value >= MESSAGE_FEE && !s.locked && IsWinning(s.count) ==>
      s.count < I32_MAX &&
      r.storage == Storage(WON_MESSAGE, true, s.count + 1) && r.env.events == e.events &&
      (transferOk ==> GetBalance(r.env) == 0 && r.reply == Returned(Ok)) &&
      (!transferOk ==> GetBalance(r.env) == GetBalance(e) && r.reply == Returned(Err(TransferFailed)))
  {
    if value < MESSAGE_FEE then
      Step(s, e, Returned(Err(InsufficientBalance)))
    else if !s.locked then
      if IsWinning(s.count) then
        WinningCountHasSuccessor(s.count);
        match Increment(s.count)
        case None => Step(s, e, Trapped)
        case Some(next) =>
          var w := WithdrawAll(Storage(WON_MESSAGE, true, next), e, transferOk);
          Step(w.storage, w.env, Returned(w.reply))
      else
        match Increment(s.count)
        case None => Step(s, e, Trapped)
        case Some(next) => Step(Storage(newMessage, s.locked, next), e, Returned(Ok))
    else
      Step(s, Env(e.balance, e.events + [Locked(LOCKED_NOTICE)]), Returned(Ok))
  }

  /** The payable message `unlock(value)`. */
  function Unlock(s: Storage, e: Env, value: u128): (r: Step<Result>)
    // the "not locked" notice is emitted whenever the call finds the contract
    // unlocked, whether or not the payment then suffices
    ensures r.env == Env(e.balance, e.events + if s.locked then [] else [Locked(NOT_LOCKED_NOTICE)])
    ensures r.reply == Ok <==> value >= UNLOCK_FEE
    ensures r.reply.Err? ==> r.reply.error == InsufficientBalance
    ensures GetLockState(r.storage) == (s.locked && value < UNLOCK_FEE)
    ensures r.storage.message == s.message && r.storage.count == s.count
  {
    var notified := if !s.locked then Env(e.balance, e.events + [Locked(NOT_LOCKED_NOTICE)]) else e;
    if value < UNLOCK_FEE then Step(s, notified, Err(InsufficientBalance))
    else Step(s.(locked := false), notified, Ok)
  }
}
