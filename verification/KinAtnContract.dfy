/**
 The token contract as the object that runs inside the virtual machine: its methods read and write
 a cache, and do there what their programs do on the state.
 */
module KinAtnContract {
  import opened Wrappers
  import opened StateKeys
  import opened CacheContents
  import opened Contracts
  import opened CachedRuns
  import opened VirtualMachines
  import opened KinAtn
  import RawAddress

  lemma ResultOfNumbers(codec: Codec, sender: string, recipient: string, s: int, amount: int,
                        contract: seq<Byte>, ledger: Ledger, written: set<StateKey>, r: int)
    requires Stored(codec, Get(ledger, AccountKey(contract, recipient))) == Some(Number(r - amount))
    requires r <= MAX_SAFE_INTEGER
    ensures var ks, kr := AccountKey(contract, sender), AccountKey(contract, recipient);
            var x := PayOutResult(codec, sender, recipient, s, amount, contract, ledger, written);
            x == Execution(Succeeded, ledger[ks := codec.stringify(s - amount)][kr := codec.stringify(r)],
                           written + {ks} + {kr})
  {
  }

  class KinAtnSmartContract {
    const codec: Codec
    const senderAddressBase58: string
    const state: ContractStateAccessor

    constructor (codec: Codec, senderAddressBase58: string, state: ContractStateAccessor)
      ensures this.codec == codec && this.senderAddressBase58 == senderAddressBase58 && this.state == state
    {
      this.codec, this.senderAddressBase58, this.state := codec, senderAddressBase58, state;
    }

    ghost predicate Ready(parent: Contents, ledger: Ledger, written: set<StateKey>)
      reads state.stateCache
    {
      && RawAddress.WellFormed(state.contractAddress)
      && Stands(state.stateCache.State(), parent, state.storage, ledger, written)
    }

    method GetBalanceForAccount(account: string, ghost parent: Contents, ghost ledger: Ledger,
                                ghost written: set<StateKey>)
      returns (balance: Option<Json>)
      requires Ready(parent, ledger, written)
      ensures balance == Stored(codec, Get(ledger, AccountKey(state.contractAddress, account)))
    {
      var value := state.Load(BalanceKey(account));
      assert value == Get(ledger, AccountKey(state.contractAddress, account));
      balance := Stored(codec, value);
    }

    method SetBalance(account: string, amount: int, ghost parent: Contents, ghost ledger: Ledger,
                      ghost written: set<StateKey>)
      requires Ready(parent, ledger, written)
      modifies state.stateCache
      ensures var k := AccountKey(state.contractAddress, account);
              Ready(parent, ledger[k := codec.stringify(amount)], written + {k})
    {
      StoreStands(state.stateCache.State(), parent, state.storage, ledger, written,
                  AccountKey(state.contractAddress, account), codec.stringify(amount));
      state.Store(BalanceKey(account), codec.stringify(amount));
    }

    /** The two writes at the end of a transfer, the sender's first. */
    method SetBalances(recipient: string, s: int, r: int, ghost parent: Contents, ghost ledger: Ledger,
                       ghost written: set<StateKey>, ghost x: Execution)
      requires Ready(parent, ledger, written)
      requires var ks := AccountKey(state.contractAddress, senderAddressBase58);
               var kr := AccountKey(state.contractAddress, recipient);
               x == Execution(Succeeded, ledger[ks := codec.stringify(s)][kr := codec.stringify(r)],
                              written + {ks} + {kr})
      modifies state.stateCache
      ensures Ready(parent, x.ledger, x.written)
    {
      ghost var ks := AccountKey(state.contractAddress, senderAddressBase58);
      SetBalance(senderAddressBase58, s, parent, ledger, written);
      SetBalance(recipient, r, parent, ledger[ks := codec.stringify(s)], written + {ks});
    }

    /** The part of a transfer after the sender's balance, s, has been looked at. */
    method PayOut(recipient: string, s: int, amount: int, ghost parent: Contents, ghost ledger: Ledger,
                  ghost written: set<StateKey>)
      returns (outcome: Outcome)
      requires Ready(parent, ledger, written)
      modifies state.stateCache
      ensures var x := PayOutResult(codec, senderAddressBase58, recipient, s, amount, state.contractAddress,
                                    ledger, written);
              outcome == x.outcome && Ready(parent, x.ledger, x.written)
    {
      ghost var x := PayOutResult(codec, senderAddressBase58, recipient, s, amount, state.contractAddress,
                                  ledger, written);
      var recipientBalance := GetBalanceForAccount(recipient, parent, ledger, written);
      if recipientBalance.None? {
        return Crashed;
      }
      if !recipientBalance.value.Number? || recipientBalance.value.n > MAX_SAFE_INTEGER - amount {
        return Rejected;
      }
      var r := recipientBalance.value.n + amount;
      ResultOfNumbers(codec, senderAddressBase58, recipient, s, amount, state.contractAddress, ledger, written, r);
      SetBalances(recipient, s - amount, r, parent, ledger, written, x);
      outcome := Succeeded;
    }

    method Transfer(recipient: Argument, amount: Argument, ghost parent: Contents, ghost ledger: Ledger,
                    ghost written: set<StateKey>)
      returns (outcome: Outcome)
      requires Ready(parent, ledger, written)
      modifies state.stateCache
      ensures var x := TransferResult(codec, senderAddressBase58, recipient, amount, state.contractAddress,
                                      ledger, written);
              outcome == x.outcome && Ready(parent, x.ledger, x.written)
    {
      if !recipient.Text? {
        return Rejected;
      }
      if !amount.Amount? {
        return Rejected;
      }
      if amount.n <= 0 {
        return Rejected;
      }
      var senderBalance := GetBalanceForAccount(senderAddressBase58, parent, ledger, written);
      if senderBalance.None? {
        return Crashed;
      }
      if !senderBalance.value.Number? || senderBalance.value.n < amount.n {
        return Rejected;
      }
      outcome := PayOut(recipient.s, senderBalance.value.n, amount.n, parent, ledger, written);
    }

    method GetPoolBalance(ghost parent: Contents, ghost ledger: Ledger, ghost written: set<StateKey>)
      returns (value: Option<string>)
      requires Ready(parent, ledger, written)
      ensures value == Get(ledger, PoolKey(state.contractAddress))
    {
      value := state.Load(ALLOCATED_POOL_STATE_VARIABLE);
    }

    method SetPoolBalance(value: string, ghost parent: Contents, ghost ledger: Ledger, ghost written: set<StateKey>)
      requires Ready(parent, ledger, written)
      modifies state.stateCache
      ensures var k := PoolKey(state.contractAddress);
              Ready(parent, ledger[k := value], written + {k})
    {
      StoreStands(state.stateCache.State(), parent, state.storage, ledger, written, PoolKey(state.contractAddress),
                  value);
      state.Store(ALLOCATED_POOL_STATE_VARIABLE, value);
    }

    /** An empty pool starts over, and is read again. */
    method ResetPool(ghost parent: Contents, ghost ledger: Ledger, ghost written: set<StateKey>)
      returns (value: Option<string>)
      requires Ready(parent, ledger, written)
      modifies state.stateCache
      ensures var k, full := PoolKey(state.contractAddress), codec.stringify(POOL_INITIAL_VALUE);
              value == Some(full) && Ready(parent, ledger[k := full], written + {k})
    {
      ghost var k := PoolKey(state.contractAddress);
      var full := codec.stringify(POOL_INITIAL_VALUE);
      SetPoolBalance(full, parent, ledger, written);
      value := GetPoolBalance(parent, ledger[k := full], written + {k});
    }

    /** The new pool is written, unless the old one could not be parsed. */
    method TakeFrom(pool: Option<string>, amount: int, ghost parent: Contents, ghost ledger: Ledger,
                    ghost written: set<StateKey>)
      returns (outcome: Outcome)
      requires Ready(parent, ledger, written)
      modifies state.stateCache
      ensures var x := TakeResult(codec, pool, amount, state.contractAddress, ledger, written);
              outcome == x.outcome && Ready(parent, x.ledger, x.written)
    {
      if Stored(codec, pool).None? {
        return Crashed;
      }
      SetPoolBalance(Minus(codec, pool, amount), parent, ledger, written);
      outcome := Succeeded;
    }

    method ReduceFromPool(amount: int, ghost parent: Contents, ghost ledger: Ledger, ghost written: set<StateKey>)
      returns (outcome: Outcome)
      requires Ready(parent, ledger, written)
      modifies state.stateCache
      ensures var x := ReduceResult(codec, amount, state.contractAddress, ledger, written);
              outcome == x.outcome && Ready(parent, x.ledger, x.written)
    {
      var allocatedBalance := GetPoolBalance(parent, ledger, written);
      if Stored(codec, allocatedBalance).Some? && IsZero(codec, allocatedBalance) {
        allocatedBalance := ResetPool(parent, ledger, written);
        ghost var k := PoolKey(state.contractAddress);
        ghost var full := codec.stringify(POOL_INITIAL_VALUE);
        outcome := TakeFrom(allocatedBalance, amount, parent, ledger[k := full], written + {k});
      } else {
        outcome := TakeFrom(allocatedBalance, amount, parent, ledger, written);
      }
    }

    method FinanceAccount(accountToFinance: Argument, ghost parent: Contents, ghost ledger: Ledger,
                          ghost written: set<StateKey>)
      returns (outcome: Outcome)
      requires Ready(parent, ledger, written)
      modifies state.stateCache
      ensures var x := FinanceResult(codec, accountToFinance, state.contractAddress, ledger, written);
              outcome == x.outcome && Ready(parent, x.ledger, x.written)
    {
      if !accountToFinance.Text? {
        return Rejected;
      }
      ghost var k := AccountKey(state.contractAddress, accountToFinance.s);
      SetBalance(accountToFinance.s, DEFAULT_BALANCE, parent, ledger, written);
      outcome := ReduceFromPool(DEFAULT_BALANCE, parent, ledger[k := codec.stringify(DEFAULT_BALANCE)], written + {k});
    }
  }
}
