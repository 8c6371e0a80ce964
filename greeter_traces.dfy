/** Sequences of calls to the `Greeter` contract's two state-changing messages,
    and what holds along every such sequence. */
module GreeterTraces {
  import opened GreeterSpec

  /** A call to one of the messages that take `&mut self`, with the chain's
      answer to the transfer a winning `set_message` attempts. */
  datatype Call =
    | SetMessageCall(newMessage: string, value: u128, transferOk: bool)
    | UnlockCall(value: u128)

  /** The contract's storage together with what it sees of the chain. */
  datatype Config = Config(storage: Storage, env: Env)

  /** The calls that pass every guard of `set_message` while unlocked and so
      reach `self.count += 1` without overflowing. */
  predicate Accepted(s: Storage, call: Call) {
    call.SetMessageCall? && call.value >= MESSAGE_FEE && !s.locked && s.count < I32_MAX
  }

  /** One call. */
  function Next(c: Config, call: Call): (n: Config)
    // count moves only through an accepted `set_message`, and then by exactly one
    ensures n.storage.count == c.storage.count + if Accepted(c.storage, call) then 1 else 0
    // the lock is only ever taken by a winning `set_message`
    ensures !c.storage.locked && n.storage.locked ==>
      Accepted(c.storage, call) && IsWinning(c.storage.count) && n.storage.message == WON_MESSAGE
    // the model credits no incoming payments; apart from those, the balance
    // only changes when a winning `set_message` is paid out, and then to zero
    ensures GetBalance(n.env) != GetBalance(c.env) ==>
      Accepted(c.storage, call) && IsWinning(c.storage.count) && call.transferOk && GetBalance(n.env) == 0
    // events are only appended, at most one per call, and each is a `Locked` notice
    ensures c.env.events <= n.env.events && |n.env.events| <= |c.env.events| + 1
    ensures forall k | |c.env.events| <= k < |n.env.events| :: n.env.events[k].Locked?
  {
    match call
    case SetMessageCall(m, v, ok) =>
      var r := SetMessage(c.storage, c.env, m, v, ok);
      Config(r.storage, r.env)
    case UnlockCall(v) =>
      var r := Unlock(c.storage, c.env, v);
      Config(r.storage, r.env)
  }

  /** The configurations a sequence of calls passes through, starting with `c`
      and ending with the one after the last call. */
  function Run(c: Config, calls: seq<Call>): (t: seq<Config>)
    ensures |t| == |calls| + 1 && t[0] == c
    decreases |calls|
  {
    if calls == [] then [c] else [c] + Run(Next(c, calls[0]), calls[1..])
  }

  /** The number of calls in `calls` that are accepted when made in order from `c`. */
  function AcceptedCount(c: Config, calls: seq<Call>): (n: nat)
    decreases |calls|
  {
    if calls == [] then 0
    else (if Accepted(c.storage, calls[0]) then 1 else 0) + AcceptedCount(Next(c, calls[0]), calls[1..])
  }

  /** Each configuration of a run follows from the one before by `Next`. */
  lemma {:induction false} RunIsStepwise(c: Config, calls: seq<Call>)
    ensures forall i | 0 <= i < |calls| :: Run(c, calls)[i + 1] == Next(Run(c, calls)[i], calls[i])
    decreases |calls|
  {
    if calls != [] {
      RunIsStepwise(Next(c, calls[0]), calls[1..]);
      var t, u := Run(c, calls), Run(Next(c, calls[0]), calls[1..]);
      assert t == [c] + u;
      forall i | 0 <= i < |calls|
        ensures t[i + 1] == Next(t[i], calls[i])
      {
        if i > 0 {
          assert t[i] == u[i - 1] && t[i + 1] == u[i] && calls[i] == calls[1..][i - 1];
        }
      }
    }
  }

  /** After any sequence of calls, count has grown by exactly the number of
      accepted `set_message` calls. */
  lemma {:induction false} CountTally(c: Config, calls: seq<Call>)
    ensures Run(c, calls)[|calls|].storage.count == c.storage.count + AcceptedCount(c, calls)
    decreases |calls|
  {
    if calls != [] {
      CountTally(Next(c, calls[0]), calls[1..]);
    }
  }

  /** `count` never decreases along a run. */
  lemma {:induction false} CountNeverDecreases(c: Config, calls: seq<Call>)
    ensures forall i, j | 0 <= i <= j <= |calls| ::
      Run(c, calls)[i].storage.count <= Run(c, calls)[j].storage.count
    decreases |calls|
  {
    if calls != [] {
      var n := Next(c, calls[0]);
      CountNeverDecreases(n, calls[1..]);
      var t, u := Run(c, calls), Run(n, calls[1..]);
      assert t == [c] + u;
      forall i, j | 0 <= i <= j <= |calls|
        ensures t[i].storage.count <= t[j].storage.count
      {
        if i == 0 {
          if j > 0 {
            assert t[j] == u[j - 1] && u[0] == n;
            assert u[0].storage.count <= u[j - 1].storage.count;
          }
        } else {
          assert t[i] == u[i - 1] && t[j] == u[j - 1];
        }
      }
    }
  }

  /** The event log only grows along a run, and everything the run adds is a
      `Locked` notice, at most one per call. */
  lemma {:induction false} EventsOnlyAppended(c: Config, calls: seq<Call>)
    ensures var last := Run(c, calls)[|calls|].env.events;
      c.env.events <= last && |last| <= |c.env.events| + |calls| &&
      forall k | |c.env.events| <= k < |last| :: last[k].Locked?
    decreases |calls|
  {
    if calls != [] {
      var n := Next(c, calls[0]);
      EventsOnlyAppended(n, calls[1..]);
      assert Run(c, calls)[|calls|] == Run(n, calls[1..])[|calls| - 1];
    }
  }

  /** What holds of every storage the contract can reach from `default()`:
      count is never negative, and while locked the message is the winning
      one and count is one past a winning count. */
  predicate WonInvariant(s: Storage) {
    s.count >= 0 && (s.locked ==> s.message == WON_MESSAGE && s.count > 5 && s.count % 5 == 1)
  }

  /** One call keeps the invariant. */
  lemma NextKeepsWonInvariant(c: Config, call: Call)
    requires WonInvariant(c.storage)
    ensures WonInvariant(Next(c, call).storage)
  {
  }

  /** Every configuration of a run that starts in the invariant keeps it. */
  lemma {:induction false} RunKeepsWonInvariant(c: Config, calls: seq<Call>)
    requires WonInvariant(c.storage)
    ensures forall i | 0 <= i <= |calls| :: WonInvariant(Run(c, calls)[i].storage)
    decreases |calls|
  {
    if calls != [] {
      var n := Next(c, calls[0]);
      NextKeepsWonInvariant(c, calls[0]);
      RunKeepsWonInvariant(n, calls[1..]);
      var t, u := Run(c, calls), Run(n, calls[1..]);
      assert t == [c] + u;
      forall i | 0 < i <= |calls|
        ensures WonInvariant(t[i].storage)
      {
        assert t[i] == u[i - 1];
      }
    }
  }

  /** From `default()`, whatever the chain does: while the contract is locked
      its greeting is "You won!". */
  lemma DefaultRunsKeepWonInvariant(e: Env, calls: seq<Call>)
    ensures forall i | 0 <= i <= |calls| ::
      var s := Run(Config(Default(), e), calls)[i].storage;
      s.count >= 0 && (GetLockState(s) ==> Greet(s) == WON_MESSAGE && s.count % 5 == 1)
  {
    RunKeepsWonInvariant(Config(Default(), e), calls);
  }

  /** From `default()`, the first five accepted `set_message` calls store their
      message and the sixth (made at count 5) wins and locks the contract. */
  lemma SixthMessageWins(e: Env, m: string, ok: bool)
    ensures var t := Run(Config(Default(), e), seq(6, _ => SetMessageCall(m, 100, ok)));
      (forall i | 1 <= i <= 5 :: t[i].storage == Storage(m, false, i)) &&
      t[6].storage == Storage(WON_MESSAGE, true, 6)
  {
    var calls := seq(6, _ => SetMessageCall(m, 100, ok));
    var t := Run(Config(Default(), e), calls);
    RunIsStepwise(Config(Default(), e), calls);
    assert t[1].storage == Storage(m, false, 1);
    assert t[2].storage == Storage(m, false, 2);
    assert t[3].storage == Storage(m, false, 3);
    assert t[4].storage == Storage(m, false, 4);
    assert t[5].storage == Storage(m, false, 5);
  }
}
