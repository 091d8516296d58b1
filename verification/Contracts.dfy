/**
 Smart contract calls as the virtual machine sees them, and what they do to the contract state.

 A call is a finite program of loads and stores whose keys, values and branches may depend in any
 way on what it has loaded so far.  It ends in success, in an expected error (`ValidationError`)
 or in an unexpected one.
 */
module Contracts {
  import opened Wrappers
  import opened StateKeys
  import opened Types

  /** The answers to the loads made so far; None is JavaScript's undefined. */
  type Env = seq<Option<string>>

  datatype Program =
    | Succeed
    | Throw(expected: bool)
    | Load(loadKey: Env -> string, next: Program)
    | Store(storeKey: Env -> string, storeValue: Env -> string, next: Program)
    | Branch(condition: Env -> bool, yes: Program, no: Program)

  datatype Outcome = Succeeded | Rejected | Crashed

  /** The state of all contracts. */
  type Ledger = map<StateKey, string>

  function Get(ledger: Ledger, k: StateKey): Option<string> {
    if k in ledger then Some(ledger[k]) else None
  }

  /** How a call ended, the state it left and the keys stored to. */
  datatype Execution = Execution(outcome: Outcome, ledger: Ledger, written: set<StateKey>)

  /** Running a call of one contract directly on the state. */
  function Run(p: Program, env: Env, contract: seq<Byte>, ledger: Ledger, written: set<StateKey>): Execution
    decreases p
  {
    match p
    case Succeed => Execution(Succeeded, ledger, written)
    case Throw(expected) => Execution(if expected then Rejected else Crashed, ledger, written)
    case Load(key, next) =>
      Run(next, env + [Get(ledger, StateKey(contract, key(env)))], contract, ledger, written)
    case Store(key, value, next) =>
      var k := StateKey(contract, key(env));
      Run(next, env, contract, ledger[k := value(env)], written + {k})
    case Branch(condition, yes, no) =>
      Run(if condition(env) then yes else no, env, contract, ledger, written)
  }

  /** A call touches only its own contract, and only the keys it reports as written. */
  lemma {:induction false} RunFrame(p: Program, env: Env, contract: seq<Byte>, ledger: Ledger, written: set<StateKey>)
    requires forall k :: k in written ==> k in ledger
    ensures var x := Run(p, env, contract, ledger, written);
            && written <= x.written
            && (forall k :: k in x.written ==> k in x.ledger)
            && (forall k :: k in x.written - written ==> k.contractAddress == contract)
            && (forall k: StateKey :: k.contractAddress != contract ==> Get(x.ledger, k) == Get(ledger, k))
            && (forall k :: k !in x.written ==> Get(x.ledger, k) == Get(ledger, k))
    decreases p
  {
    match p
    case Succeed =>
    case Throw(_) =>
    case Load(key, next) =>
      RunFrame(next, env + [Get(ledger, StateKey(contract, key(env)))], contract, ledger, written);
    case Store(key, value, next) =>
      var k := StateKey(contract, key(env));
      RunFrame(next, env, contract, ledger[k := value(env)], written + {k});
    case Branch(condition, yes, no) =>
      RunFrame(if condition(env) then yes else no, env, contract, ledger, written);
  }

  // Sets of transactions

  /**
   The registry and the processor: the program a transaction makes its contract run.  A contract that
   is not registered or a payload that does not parse is a program that throws unexpectedly.
   */
  type Processor = Transaction -> Program

  /** A transaction of an ordered set, with its program. */
  datatype Call = Call(txHash: seq<Byte>, contractAddress: seq<Byte>, program: Program)

  function CallsOf(processor: Processor, entries: seq<TransactionEntry>): (r: seq<Call>)
    ensures |r| == |entries|
  {
    seq(|entries|, i requires 0 <= i < |entries| => CallOf(processor, entries[i]))
  }

  function CallOf(processor: Processor, entry: TransactionEntry): Call {
    Call(entry.txHash, entry.transaction.header.contractAddress, processor(entry.transaction))
  }

  datatype SetRun = SetRun(ledger: Ledger, written: set<StateKey>, receipts: seq<TransactionReceipt>, crashed: bool)

  /** One after another on a single state; a rejected call leaves no trace but its receipt. */
  function RunSet(calls: seq<Call>, ledger: Ledger): SetRun {
    if calls == [] then SetRun(ledger, {}, [], false)
    else
      var before := RunSet(calls[..|calls| - 1], ledger);
      if before.crashed then before
      else RunNext(before, calls[|calls| - 1])
  }

  function RunNext(before: SetRun, call: Call): SetRun {
    var x := Run(call.program, [], call.contractAddress, before.ledger, before.written);
    match x.outcome
    case Succeeded => SetRun(x.ledger, x.written, before.receipts + [TransactionReceipt(call.txHash, true)], false)
    case Rejected => before.(receipts := before.receipts + [TransactionReceipt(call.txHash, false)])
    case Crashed => before.(crashed := true)
  }

  lemma RunSetNext(calls: seq<Call>, n: nat, ledger: Ledger)
    requires n < |calls|
    ensures RunSet(calls[..n + 1], ledger) ==
            var before := RunSet(calls[..n], ledger); if before.crashed then before else RunNext(before, calls[n])
  {
    assert calls[..n + 1][..n] == calls[..n];
  }

  lemma {:induction false} RunSetFrame(calls: seq<Call>, ledger: Ledger)
    ensures var r := RunSet(calls, ledger);
            && (forall k :: k in r.written ==> k in r.ledger)
            && (forall k :: k !in r.written ==> Get(r.ledger, k) == Get(ledger, k))
            && (!r.crashed ==> |r.receipts| == |calls|)
  {
    if calls != [] {
      RunSetFrame(calls[..|calls| - 1], ledger);
      var before, call := RunSet(calls[..|calls| - 1], ledger), calls[|calls| - 1];
      if !before.crashed {
        RunFrame(call.program, [], call.contractAddress, before.ledger, before.written);
      }
    }
  }

  /** A longer run has written at least as much, and after a crash nothing more happens. */
  lemma {:induction false} RunSetExtends(calls: seq<Call>, n: nat, ledger: Ledger)
    requires n <= |calls|
    ensures RunSet(calls[..n], ledger).written <= RunSet(calls, ledger).written
    ensures RunSet(calls[..n], ledger).crashed ==> RunSet(calls, ledger) == RunSet(calls[..n], ledger)
    decreases |calls| - n
  {
    if n == |calls| {
      assert calls[..n] == calls;
    } else {
      RunSetExtends(calls, n + 1, ledger);
      RunSetNext(calls, n, ledger);
      RunSetFrame(calls[..n], ledger);
      var before := RunSet(calls[..n], ledger);
      if !before.crashed {
        RunFrame(calls[n].program, [], calls[n].contractAddress, before.ledger, before.written);
      }
    }
  }

  /** A run continued by another one, which started where the first one ended. */
  function Continued(first: SetRun, second: SetRun): SetRun {
    SetRun(second.ledger, first.written + second.written, first.receipts + second.receipts, second.crashed)
  }

  lemma NextContinued(first: SetRun, before: SetRun, call: Call)
    requires !before.crashed
    ensures RunNext(Continued(first, before), call) == Continued(first, RunNext(before, call))
  {
    RunAddsWritten(call.program, [], call.contractAddress, before.ledger, first.written, before.written);
  }

  /** Running a longer list is running its second part on what the first part leaves. */
  lemma {:induction false} RunSetAppend(a: seq<Call>, b: seq<Call>, ledger: Ledger)
    requires !RunSet(a, ledger).crashed
    ensures RunSet(a + b, ledger) == Continued(RunSet(a, ledger), RunSet(b, RunSet(a, ledger).ledger))
  {
    if b == [] {
      assert a + b == a;
    } else {
      var n := |b| - 1;
      var first := RunSet(a, ledger);
      var before := RunSet(b[..n], first.ledger);
      assert (a + b)[..|a + b| - 1] == a + b[..n];
      RunSetAppend(a, b[..n], ledger);
      if !before.crashed {
        NextContinued(first, before, b[n]);
      }
    }
  }

  /** What was written before a call makes no difference to it. */
  lemma {:induction false} RunAddsWritten(p: Program, env: Env, contract: seq<Byte>, ledger: Ledger, v: set<StateKey>,
                                          w: set<StateKey>)
    ensures var x := Run(p, env, contract, ledger, w);
            Run(p, env, contract, ledger, v + w) == x.(written := v + x.written)
    decreases p
  {
    match p
    case Succeed =>
    case Throw(_) =>
    case Load(key, next) =>
      RunAddsWritten(next, env + [Get(ledger, StateKey(contract, key(env)))], contract, ledger, v, w);
    case Store(key, value, next) =>
      var k := StateKey(contract, key(env));
      assert v + w + {k} == v + (w + {k});
      RunAddsWritten(next, env, contract, ledger[k := value(env)], v, w + {k});
    case Branch(condition, yes, no) =>
      RunAddsWritten(if condition(env) then yes else no, env, contract, ledger, v, w);
  }
}
