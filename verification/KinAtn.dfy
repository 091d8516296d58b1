/**
 The Kin ATN token contract: transfers between accounts, and the financing of accounts out of a
 pool that starts over when it runs dry.
 */
module KinAtn {
  import opened Wrappers
  import opened StateKeys
  import opened Contracts

  const ALLOCATED_POOL_STATE_VARIABLE := "atn_pool"
  const ONE_MILLION := 1_000_000
  const ONE_BILLION := ONE_MILLION * 1000
  const DEFAULT_BALANCE := 10000
  const POOL_INITIAL_VALUE := ONE_BILLION * 20
  const MAX_SAFE_INTEGER := 0x1F_FFFF_FFFF_FFFF

  /** JSON texts of whole numbers; anything else that parses is only known not to be one. */
  datatype Json = Number(n: int) | Other

  /**
   `JSON.stringify` on whole numbers and `JSON.parse`, which throws on malformed texts; and what
   JavaScript makes of comparing to zero, or subtracting from, a text that is no whole number.
   */
  datatype Codec = Codec(stringify: int -> string, parse: string -> Option<Json>,
                         equalsZero: string -> bool, minus: (string, int) -> string)

  ghost predicate RoundTrips(codec: Codec) {
    forall n: int :: codec.parse(codec.stringify(n)) == Some(Number(n))
  }

  /** An argument out of a JSON payload. */
  datatype Argument = Text(s: string) | Amount(n: int) | Neither

  function BalanceKey(account: string): string {
    "balances." + account
  }

  /** A stored number; an absent one counts as 0. */
  function Stored(codec: Codec, value: Option<string>): Option<Json> {
    if value.None? then Some(Number(0)) else codec.parse(value.value)
  }

  function NumberAt(codec: Codec, env: Env, i: nat): int {
    if i < |env| then
      match Stored(codec, env[i])
      case Some(Number(n)) => n
      case _ => 0
    else 0
  }

  /** Go on only if the i-th load parses; malformed JSON is an unexpected error. */
  function Parsed(codec: Codec, i: nat, next: Program): Program {
    Branch(env => i < |env| && Stored(codec, env[i]).None?, Throw(false), next)
  }

  /** Go on only if the i-th load is a number. */
  function Checked(codec: Codec, i: nat, next: Program): Program {
    Parsed(codec, i, Branch(env => i < |env| && Stored(codec, env[i]) == Some(Other), Throw(true), next))
  }

  function Transfer(codec: Codec, sender: string, recipient: Argument, amount: Argument): Program {
    if !recipient.Text? || !amount.Amount? || amount.n <= 0 then Throw(true)
    else Load(_ => BalanceKey(sender), Checked(codec, 0, IfFunded(codec, sender, recipient.s, amount.n)))
  }

  function IfFunded(codec: Codec, sender: string, recipient: string, amount: int): Program {
    Branch(env => NumberAt(codec, env, 0) < amount, Throw(true), FromRecipient(codec, sender, recipient, amount))
  }

  function FromRecipient(codec: Codec, sender: string, recipient: string, amount: int): Program {
    Load(_ => BalanceKey(recipient), Checked(codec, 1, IfRoom(codec, sender, recipient, amount)))
  }

  function IfRoom(codec: Codec, sender: string, recipient: string, amount: int): Program {
    Branch(env => NumberAt(codec, env, 1) > MAX_SAFE_INTEGER - amount, Throw(true),
           Exchange(codec, sender, recipient, amount))
  }

  function Exchange(codec: Codec, sender: string, recipient: string, amount: int): Program {
    Store(_ => BalanceKey(sender), env => codec.stringify(NumberAt(codec, env, 0) - amount),
          Store(_ => BalanceKey(recipient), env => codec.stringify(NumberAt(codec, env, 1) + amount), Succeed))
  }

  function FinanceAccount(codec: Codec, account: Argument): Program {
    if !account.Text? then Throw(true)
    else
      Store(_ => BalanceKey(account.s), _ => codec.stringify(DEFAULT_BALANCE),
            ReduceFromPool(codec, DEFAULT_BALANCE))
  }

  /** The pool is taken as it is: only its JSON is looked at, not its type. */
  function ReduceFromPool(codec: Codec, amount: int): Program {
    Load(_ => ALLOCATED_POOL_STATE_VARIABLE, Parsed(codec, 0, TakeFromPool(codec, amount)))
  }

  function TakeFromPool(codec: Codec, amount: int): Program {
    Branch(env => IsZero(codec, Loaded(env, 0)), ResetPool(codec, amount), SetPool(codec, 0, amount))
  }

  function ResetPool(codec: Codec, amount: int): Program {
    Store(_ => ALLOCATED_POOL_STATE_VARIABLE, _ => codec.stringify(POOL_INITIAL_VALUE),
          Load(_ => ALLOCATED_POOL_STATE_VARIABLE, Parsed(codec, 1, SetPool(codec, 1, amount))))
  }

  function SetPool(codec: Codec, i: nat, amount: int): Program {
    Store(_ => ALLOCATED_POOL_STATE_VARIABLE, env => Minus(codec, Loaded(env, i), amount), Succeed)
  }

  function Loaded(env: Env, i: nat): Option<string> {
    if i < |env| then env[i] else None
  }

  function IsZero(codec: Codec, value: Option<string>): bool {
    match Stored(codec, value)
    case Some(Number(n)) => n == 0
    case _ => value.Some? && codec.equalsZero(value.value)
  }

  function Minus(codec: Codec, value: Option<string>, amount: int): string {
    match Stored(codec, value)
    case Some(Number(n)) => codec.stringify(n - amount)
    case _ => if value.Some? then codec.minus(value.value, amount) else codec.stringify(-amount)
  }

  // The state of the token

  predicate IsBalanceKey(contract: seq<Byte>, k: StateKey) {
    k.contractAddress == contract && BalanceKey("") <= k.key
  }

  function PoolKey(contract: seq<Byte>): StateKey {
    StateKey(contract, ALLOCATED_POOL_STATE_VARIABLE)
  }

  function AccountKey(contract: seq<Byte>, account: string): StateKey {
    StateKey(contract, BalanceKey(account))
  }

  /** The number stored at a key, 0 where there is none. */
  function At(codec: Codec, ledger: Ledger, k: StateKey): int {
    NumberAt(codec, [Get(ledger, k)], 0)
  }

  predicate IsNumber(codec: Codec, value: Option<string>) {
    var json := Stored(codec, value);
    json.Some? && json.value.Number?
  }

  /** All balances are safe integers, and the pool holds whole grants and at least one less than all. */
  ghost predicate Sound(codec: Codec, contract: seq<Byte>, ledger: Ledger) {
    && (forall k :: IsBalanceKey(contract, k) ==>
          IsNumber(codec, Get(ledger, k)) && 0 <= At(codec, ledger, k) <= MAX_SAFE_INTEGER)
    && IsNumber(codec, Get(ledger, PoolKey(contract)))
    && At(codec, ledger, PoolKey(contract)) % DEFAULT_BALANCE == 0
    && 0 <= At(codec, ledger, PoolKey(contract)) <= POOL_INITIAL_VALUE - DEFAULT_BALANCE
  }

  // What the calls do

  /** How a checked load goes on. */
  lemma CheckedStep(codec: Codec, i: nat, next: Program, env: Env, contract: seq<Byte>, ledger: Ledger,
                    written: set<StateKey>)
    requires i < |env|
    ensures Run(Checked(codec, i, next), env, contract, ledger, written) ==
            match Stored(codec, env[i])
            case None => Execution(Crashed, ledger, written)
            case Some(Other) => Execution(Rejected, ledger, written)
            case Some(Number(_)) => Run(next, env, contract, ledger, written)
  {
    var program: Program := Checked(codec, i, next);
    if program.condition(env) {
      assert Run(program, env, contract, ledger, written) == Run(Throw(false), env, contract, ledger, written);
    } else {
      var inner := program.no;
      assert Run(program, env, contract, ledger, written) == Run(inner, env, contract, ledger, written);
      if inner.condition(env) {
        assert Run(inner, env, contract, ledger, written) == Run(Throw(true), env, contract, ledger, written);
      } else {
        assert Run(inner, env, contract, ledger, written) == Run(next, env, contract, ledger, written);
      }
    }
  }

  /** A load and its check. */
  lemma CheckedLoad(codec: Codec, program: Program, next: Program, env: Env, contract: seq<Byte>, ledger: Ledger,
                    written: set<StateKey>)
    requires program.Load? && program.next == Checked(codec, |env|, next)
    ensures var value := Get(ledger, StateKey(contract, program.loadKey(env)));
            Run(program, env, contract, ledger, written) ==
            match Stored(codec, value)
            case None => Execution(Crashed, ledger, written)
            case Some(Other) => Execution(Rejected, ledger, written)
            case Some(Number(_)) => Run(next, env + [value], contract, ledger, written)
  {
    var value := Get(ledger, StateKey(contract, program.loadKey(env)));
    assert Run(program, env, contract, ledger, written) ==
           Run(Checked(codec, |env|, next), env + [value], contract, ledger, written);
    CheckedStep(codec, |env|, next, env + [value], contract, ledger, written);
  }

  lemma ParsedLoad(codec: Codec, program: Program, next: Program, env: Env, contract: seq<Byte>, ledger: Ledger,
                   written: set<StateKey>)
    requires program.Load? && program.next == Parsed(codec, |env|, next)
    ensures var value := Get(ledger, StateKey(contract, program.loadKey(env)));
            Run(program, env, contract, ledger, written) ==
            if Stored(codec, value).None? then Execution(Crashed, ledger, written)
            else Run(next, env + [value], contract, ledger, written)
  {
    var value := Get(ledger, StateKey(contract, program.loadKey(env)));
    var parsed := Parsed(codec, |env|, next);
    assert Run(program, env, contract, ledger, written) == Run(parsed, env + [value], contract, ledger, written);
    if Stored(codec, value).None? {
      assert Run(parsed, env + [value], contract, ledger, written) ==
             Run(Throw(false), env + [value], contract, ledger, written);
    }
  }

  /** Both balances overwritten, the recipient's last. */
  function SetBoth(codec: Codec, contract: seq<Byte>, ledger: Ledger, sender: string, recipient: string, s: int,
                   r: int): Ledger {
    ledger[AccountKey(contract, sender) := codec.stringify(s)][AccountKey(contract, recipient) := codec.stringify(r)]
  }

  function Exchanged(codec: Codec, contract: seq<Byte>, ledger: Ledger, written: set<StateKey>,
                     sender: string, recipient: string, s: int, r: int): Execution {
    Execution(Succeeded, SetBoth(codec, contract, ledger, sender, recipient, s, r),
              written + {AccountKey(contract, sender)} + {AccountKey(contract, recipient)})
  }

  lemma RunExchange(codec: Codec, sender: string, recipient: string, amount: int, env: Env,
                    contract: seq<Byte>, ledger: Ledger, written: set<StateKey>)
    ensures Run(Exchange(codec, sender, recipient, amount), env, contract, ledger, written) ==
            Exchanged(codec, contract, ledger, written, sender, recipient,
                      NumberAt(codec, env, 0) - amount, NumberAt(codec, env, 1) + amount)
  {
    var ks := AccountKey(contract, sender);
    var second := Store(_ => BalanceKey(recipient), env => codec.stringify(NumberAt(codec, env, 1) + amount), Succeed);
    assert Run(Exchange(codec, sender, recipient, amount), env, contract, ledger, written)
        == Run(second, env, contract, ledger[ks := codec.stringify(NumberAt(codec, env, 0) - amount)], written + {ks});
  }

  /** A transfer that names an account and a positive amount the sender has and the recipient can take. */
  predicate Covered(codec: Codec, contract: seq<Byte>, ledger: Ledger, sender: string, recipient: Argument,
                    amount: Argument) {
    && recipient.Text? && amount.Amount? && amount.n > 0
    && At(codec, ledger, AccountKey(contract, sender)) >= amount.n
    && At(codec, ledger, AccountKey(contract, recipient.s)) <= MAX_SAFE_INTEGER - amount.n
  }

  lemma RunIfRoom(codec: Codec, sender: string, recipient: string, amount: int, env: Env,
                  contract: seq<Byte>, ledger: Ledger, written: set<StateKey>)
    ensures Run(IfRoom(codec, sender, recipient, amount), env, contract, ledger, written) ==
            if NumberAt(codec, env, 1) > MAX_SAFE_INTEGER - amount then Execution(Rejected, ledger, written)
            else
              Exchanged(codec, contract, ledger, written, sender, recipient,
                        NumberAt(codec, env, 0) - amount, NumberAt(codec, env, 1) + amount)
  {
    RunExchange(codec, sender, recipient, amount, env, contract, ledger, written);
  }

  /** What a covered transfer makes of the state. */
  function Moved(codec: Codec, contract: seq<Byte>, ledger: Ledger, sender: string, recipient: string,
                 amount: int): Ledger {
    SetBoth(codec, contract, ledger, sender, recipient,
            At(codec, ledger, AccountKey(contract, sender)) - amount,
            At(codec, ledger, AccountKey(contract, recipient)) + amount)
  }

  lemma TransferStart(codec: Codec, sender: string, recipient: string, amount: int, contract: seq<Byte>, ledger: Ledger,
                      written: set<StateKey>)
    requires amount > 0
    ensures var balance := Get(ledger, AccountKey(contract, sender));
            Run(Transfer(codec, sender, Text(recipient), Amount(amount)), [], contract, ledger, written) ==
            match Stored(codec, balance)
            case None => Execution(Crashed, ledger, written)
            case Some(Other) => Execution(Rejected, ledger, written)
            case Some(Number(n)) =>
              if n < amount then Execution(Rejected, ledger, written)
              else Run(FromRecipient(codec, sender, recipient, amount), [balance], contract, ledger, written)
  {
    var env: Env := [] + [Get(ledger, AccountKey(contract, sender))];
    assert env == [Get(ledger, AccountKey(contract, sender))];
    var program := Transfer(codec, sender, Text(recipient), Amount(amount));
    CheckedLoad(codec, program, IfFunded(codec, sender, recipient, amount), [], contract, ledger, written);
  }

  /** Its outcome for the two texts loaded. */
  lemma RoomOfTexts(codec: Codec, sender: string, recipient: string, amount: int, env: Env,
                    contract: seq<Byte>, ledger: Ledger, written: set<StateKey>)
    requires env == [Get(ledger, AccountKey(contract, sender)), Get(ledger, AccountKey(contract, recipient))]
    requires IsNumber(codec, Get(ledger, AccountKey(contract, recipient)))
    ensures Run(IfRoom(codec, sender, recipient, amount), env, contract, ledger, written) ==
            PayOutResult(codec, sender, recipient, At(codec, ledger, AccountKey(contract, sender)), amount,
                         contract, ledger, written)
  {
    RunIfRoom(codec, sender, recipient, amount, env, contract, ledger, written);
    assert NumberAt(codec, env, 0) == At(codec, ledger, AccountKey(contract, sender));
  }

  lemma TransferEnd(codec: Codec, sender: string, recipient: string, amount: int, contract: seq<Byte>, ledger: Ledger,
                    written: set<StateKey>)
    ensures var from := AccountKey(contract, sender);
            Run(FromRecipient(codec, sender, recipient, amount), [Get(ledger, from)], contract, ledger, written) ==
            PayOutResult(codec, sender, recipient, At(codec, ledger, from), amount, contract, ledger, written)
  {
    var first: Env := [Get(ledger, AccountKey(contract, sender))];
    var env: Env := first + [Get(ledger, AccountKey(contract, recipient))];
    var program := FromRecipient(codec, sender, recipient, amount);
    CheckedLoad(codec, program, IfRoom(codec, sender, recipient, amount), first, contract, ledger, written);
    if IsNumber(codec, Get(ledger, AccountKey(contract, recipient))) {
      RoomOfTexts(codec, sender, recipient, amount, env, contract, ledger, written);
    }
  }

  /** How a transfer ends, by its arguments and what is stored for the two accounts. */
  function TransferResult(codec: Codec, sender: string, recipient: Argument, amount: Argument,
                          contract: seq<Byte>, ledger: Ledger, written: set<StateKey>): Execution {
    if !recipient.Text? || !amount.Amount? || amount.n <= 0 then Execution(Rejected, ledger, written)
    else
      match Stored(codec, Get(ledger, AccountKey(contract, sender)))
      case None => Execution(Crashed, ledger, written)
      case Some(Other) => Execution(Rejected, ledger, written)
      case Some(Number(s)) =>
        if s < amount.n then Execution(Rejected, ledger, written)
        else PayOutResult(codec, sender, recipient.s, s, amount.n, contract, ledger, written)
  }

  /** The end of a transfer, from the recipient on, for a sender that has s. */
  function PayOutResult(codec: Codec, sender: string, recipient: string, s: int, amount: int, contract: seq<Byte>,
                        ledger: Ledger, written: set<StateKey>): Execution {
    match Stored(codec, Get(ledger, AccountKey(contract, recipient)))
    case None => Execution(Crashed, ledger, written)
    case Some(Other) => Execution(Rejected, ledger, written)
    case Some(Number(r)) =>
      if r > MAX_SAFE_INTEGER - amount then Execution(Rejected, ledger, written)
      else Exchanged(codec, contract, ledger, written, sender, recipient, s - amount, r + amount)
  }

  lemma TransferComesTo(codec: Codec, sender: string, recipient: Argument, amount: Argument,
                        contract: seq<Byte>, ledger: Ledger, written: set<StateKey>)
    ensures Run(Transfer(codec, sender, recipient, amount), [], contract, ledger, written) ==
            TransferResult(codec, sender, recipient, amount, contract, ledger, written)
  {
    if recipient.Text? && amount.Amount? && amount.n > 0 {
      assert recipient == Text(recipient.s) && amount == Amount(amount.n);
      TransferStart(codec, sender, recipient.s, amount.n, contract, ledger, written);
      TransferEnd(codec, sender, recipient.s, amount.n, contract, ledger, written);
    }
  }

  lemma NumbersSettle(codec: Codec, sender: string, recipient: Argument, amount: Argument,
                      contract: seq<Byte>, ledger: Ledger, written: set<StateKey>)
    requires IsNumber(codec, Get(ledger, AccountKey(contract, sender)))
    requires recipient.Text? ==> IsNumber(codec, Get(ledger, AccountKey(contract, recipient.s)))
    ensures var x := TransferResult(codec, sender, recipient, amount, contract, ledger, written);
            if Covered(codec, contract, ledger, sender, recipient, amount) then
              && x.outcome == Succeeded
              && x.ledger == Moved(codec, contract, ledger, sender, recipient.s, amount.n)
              && x.written == written + {AccountKey(contract, sender)} + {AccountKey(contract, recipient.s)}
            else
              x == Execution(Rejected, ledger, written)
  {
  }

  /** In a sound state a transfer is covered and moves the amount, or it is rejected. */
  lemma RunTransfer(codec: Codec, sender: string, recipient: Argument, amount: Argument,
                    contract: seq<Byte>, ledger: Ledger, written: set<StateKey>)
    requires Sound(codec, contract, ledger)
    ensures var x := Run(Transfer(codec, sender, recipient, amount), [], contract, ledger, written);
            if Covered(codec, contract, ledger, sender, recipient, amount) then
              && x.outcome == Succeeded
              && x.ledger == Moved(codec, contract, ledger, sender, recipient.s, amount.n)
              && x.written == written + {AccountKey(contract, sender)} + {AccountKey(contract, recipient.s)}
            else
              x == Execution(Rejected, ledger, written)
  {
    TransferComesTo(codec, sender, recipient, amount, contract, ledger, written);
    SoundAccount(codec, contract, ledger, sender);
    if recipient.Text? {
      SoundAccount(codec, contract, ledger, recipient.s);
    }
    NumbersSettle(codec, sender, recipient, amount, contract, ledger, written);
  }

  /** The end of taking from the pool, given the text it holds. */
  function TakeResult(codec: Codec, pool: Option<string>, amount: int, contract: seq<Byte>, ledger: Ledger,
                      written: set<StateKey>): Execution {
    if Stored(codec, pool).None? then Execution(Crashed, ledger, written)
    else Execution(Succeeded, ledger[PoolKey(contract) := Minus(codec, pool, amount)], written + {PoolKey(contract)})
  }

  /** How taking from the pool ends. */
  function ReduceResult(codec: Codec, amount: int, contract: seq<Byte>, ledger: Ledger,
                        written: set<StateKey>): Execution {
    var k := PoolKey(contract);
    var full := codec.stringify(POOL_INITIAL_VALUE);
    if Stored(codec, Get(ledger, k)).Some? && IsZero(codec, Get(ledger, k)) then
      TakeResult(codec, Some(full), amount, contract, ledger[k := full], written + {k})
    else
      TakeResult(codec, Get(ledger, k), amount, contract, ledger, written)
  }

  lemma RunSetPool(codec: Codec, i: nat, amount: int, env: Env, contract: seq<Byte>, ledger: Ledger,
                   written: set<StateKey>)
    requires i < |env| && Stored(codec, env[i]).Some?
    ensures Run(SetPool(codec, i, amount), env, contract, ledger, written) ==
            TakeResult(codec, env[i], amount, contract, ledger, written)
  {
  }

  lemma RunResetPool(codec: Codec, amount: int, first: Option<string>, contract: seq<Byte>, ledger: Ledger,
                     written: set<StateKey>)
    ensures var k, full := PoolKey(contract), codec.stringify(POOL_INITIAL_VALUE);
            Run(ResetPool(codec, amount), [first], contract, ledger, written) ==
            TakeResult(codec, Some(full), amount, contract, ledger[k := full], written + {k})
  {
    var k, full := PoolKey(contract), codec.stringify(POOL_INITIAL_VALUE);
    var ledger', written' := ledger[k := full], written + {k};
    var second := ResetPool(codec, amount).next;
    assert Run(ResetPool(codec, amount), [first], contract, ledger, written) ==
           Run(second, [first], contract, ledger', written');
    ParsedLoad(codec, second, SetPool(codec, 1, amount), [first], contract, ledger', written');
    if Stored(codec, Some(full)).Some? {
      RunSetPool(codec, 1, amount, [first] + [Some(full)], contract, ledger', written');
    }
  }

  lemma RunReduceFromPool(codec: Codec, amount: int, contract: seq<Byte>, ledger: Ledger, written: set<StateKey>)
    ensures Run(ReduceFromPool(codec, amount), [], contract, ledger, written) ==
            ReduceResult(codec, amount, contract, ledger, written)
  {
    var pool := Get(ledger, PoolKey(contract));
    var env: Env := [pool];
    assert [] + env == env;
    ParsedLoad(codec, ReduceFromPool(codec, amount), TakeFromPool(codec, amount), [], contract, ledger, written);
    if Stored(codec, pool).Some? {
      if IsZero(codec, pool) {
        RunResetPool(codec, amount, pool, contract, ledger, written);
      } else {
        RunSetPool(codec, 0, amount, env, contract, ledger, written);
      }
    }
  }

  /** How financing an account ends. */
  function FinanceResult(codec: Codec, account: Argument, contract: seq<Byte>, ledger: Ledger,
                         written: set<StateKey>): Execution {
    if !account.Text? then Execution(Rejected, ledger, written)
    else
      var k := AccountKey(contract, account.s);
      ReduceResult(codec, DEFAULT_BALANCE, contract, ledger[k := codec.stringify(DEFAULT_BALANCE)], written + {k})
  }

  lemma FinanceComesTo(codec: Codec, account: Argument, contract: seq<Byte>, ledger: Ledger, written: set<StateKey>)
    ensures Run(FinanceAccount(codec, account), [], contract, ledger, written) ==
            FinanceResult(codec, account, contract, ledger, written)
  {
    if account.Text? {
      var k := AccountKey(contract, account.s);
      RunReduceFromPool(codec, DEFAULT_BALANCE, contract, ledger[k := codec.stringify(DEFAULT_BALANCE)], written + {k});
    }
  }

  /** The pool after a grant: an empty or new one starts over first. */
  function PoolAfter(pool: int, amount: int): int {
    (if pool == 0 then POOL_INITIAL_VALUE else pool) - amount
  }

  lemma ReduceNumber(codec: Codec, amount: int, contract: seq<Byte>, ledger: Ledger, written: set<StateKey>)
    requires RoundTrips(codec) && IsNumber(codec, Get(ledger, PoolKey(contract)))
    ensures var k := PoolKey(contract);
            ReduceResult(codec, amount, contract, ledger, written) ==
            Execution(Succeeded, ledger[k := codec.stringify(PoolAfter(At(codec, ledger, k), amount))], written + {k})
  {
    var k, full := PoolKey(contract), codec.stringify(POOL_INITIAL_VALUE);
    var after := codec.stringify(PoolAfter(At(codec, ledger, k), amount));
    assert ledger[k := full][k := after] == ledger[k := after];
    assert written + {k} + {k} == written + {k};
  }

  /** What financing an account makes of the state. */
  function Financed(codec: Codec, contract: seq<Byte>, ledger: Ledger, account: string): Ledger {
    ledger[AccountKey(contract, account) := codec.stringify(DEFAULT_BALANCE)]
          [PoolKey(contract) := codec.stringify(PoolAfter(At(codec, ledger, PoolKey(contract)), DEFAULT_BALANCE))]
  }

  lemma RunFinanceAccount(codec: Codec, account: Argument, contract: seq<Byte>, ledger: Ledger, written: set<StateKey>)
    requires RoundTrips(codec) && Sound(codec, contract, ledger)
    ensures var x := Run(FinanceAccount(codec, account), [], contract, ledger, written);
            if account.Text? then
              && x.outcome == Succeeded
              && x.ledger == Financed(codec, contract, ledger, account.s)
              && x.written == written + {AccountKey(contract, account.s)} + {PoolKey(contract)}
            else
              x == Execution(Rejected, ledger, written)
  {
    FinanceComesTo(codec, account, contract, ledger, written);
    if account.Text? {
      var k := AccountKey(contract, account.s);
      var ledger' := ledger[k := codec.stringify(DEFAULT_BALANCE)];
      PoolIsNoBalance(contract, account.s);
      assert Get(ledger', PoolKey(contract)) == Get(ledger, PoolKey(contract));
      ReduceNumber(codec, DEFAULT_BALANCE, contract, ledger', written + {k});
    }
  }

  // What the calls keep

  /** The balances by state key. */
  function Balances(codec: Codec, contract: seq<Byte>, ledger: Ledger): map<StateKey, int> {
    map k | k in ledger && IsBalanceKey(contract, k) :: At(codec, ledger, k)
  }

  ghost function Total(balances: map<StateKey, int>): int {
    if balances == map[] then 0
    else
      var k :| k in balances;
      balances[k] + Total(balances - {k})
  }

  lemma {:induction false} TotalWithout(balances: map<StateKey, int>, k: StateKey)
    requires k in balances
    ensures Total(balances) == balances[k] + Total(balances - {k})
    decreases |balances|
  {
    var picked :| picked in balances && Total(balances) == balances[picked] + Total(balances - {picked});
    if picked != k {
      TotalWithout(balances - {picked}, k);
      TotalWithout(balances - {k}, picked);
      assert balances - {picked} - {k} == balances - {k} - {picked};
    }
  }

  function BalanceOr0(balances: map<StateKey, int>, k: StateKey): int {
    if k in balances then balances[k] else 0
  }

  lemma TotalAfterSet(balances: map<StateKey, int>, k: StateKey, n: int)
    ensures Total(balances[k := n]) == Total(balances) - BalanceOr0(balances, k) + n
  {
    TotalWithout(balances[k := n], k);
    if k in balances {
      TotalWithout(balances, k);
      assert balances[k := n] - {k} == balances - {k};
    } else {
      assert balances[k := n] - {k} == balances;
    }
  }

  /** The sum of all balances of the token. */
  ghost function TotalOf(codec: Codec, contract: seq<Byte>, ledger: Ledger): int {
    Total(Balances(codec, contract, ledger))
  }

  lemma BalancesAfterStore(codec: Codec, contract: seq<Byte>, ledger: Ledger, k: StateKey, n: int)
    requires RoundTrips(codec)
    ensures Balances(codec, contract, ledger[k := codec.stringify(n)]) ==
            if IsBalanceKey(contract, k) then Balances(codec, contract, ledger)[k := n]
            else Balances(codec, contract, ledger)
  {
    var ledger' := ledger[k := codec.stringify(n)];
    assert At(codec, ledger', k) == n;
    forall j | j in ledger && j != k
      ensures At(codec, ledger', j) == At(codec, ledger, j)
    {
      assert Get(ledger', j) == Get(ledger, j);
    }
  }

  lemma TotalAfterStore(codec: Codec, contract: seq<Byte>, ledger: Ledger, k: StateKey, n: int)
    requires RoundTrips(codec)
    ensures TotalOf(codec, contract, ledger[k := codec.stringify(n)]) ==
            TotalOf(codec, contract, ledger) + if IsBalanceKey(contract, k) then n - At(codec, ledger, k) else 0
  {
    BalancesAfterStore(codec, contract, ledger, k, n);
    if IsBalanceKey(contract, k) {
      TotalAfterSet(Balances(codec, contract, ledger), k, n);
      assert BalanceOr0(Balances(codec, contract, ledger), k) == At(codec, ledger, k);
    }
  }

  lemma AtAfterStore(codec: Codec, ledger: Ledger, k: StateKey, n: int, j: StateKey)
    requires RoundTrips(codec)
    ensures var ledger' := ledger[k := codec.stringify(n)];
            && At(codec, ledger', j) == (if j == k then n else At(codec, ledger, j))
            && IsNumber(codec, Get(ledger', j)) == (j == k || IsNumber(codec, Get(ledger, j)))
  {
    if j != k {
      assert Get(ledger[k := codec.stringify(n)], j) == Get(ledger, j);
    }
  }

  /** Storing a safe balance, or a fitting pool, keeps the token sound. */
  lemma StoreKeepsSound(codec: Codec, contract: seq<Byte>, ledger: Ledger, k: StateKey, n: int)
    requires RoundTrips(codec) && Sound(codec, contract, ledger)
    requires IsBalanceKey(contract, k) ==> 0 <= n <= MAX_SAFE_INTEGER
    requires k == PoolKey(contract) ==> n % DEFAULT_BALANCE == 0 && 0 <= n <= POOL_INITIAL_VALUE - DEFAULT_BALANCE
    ensures Sound(codec, contract, ledger[k := codec.stringify(n)])
  {
    var ledger' := ledger[k := codec.stringify(n)];
    forall j | IsBalanceKey(contract, j)
      ensures IsNumber(codec, Get(ledger', j)) && 0 <= At(codec, ledger', j) <= MAX_SAFE_INTEGER
    {
      AtAfterStore(codec, ledger, k, n, j);
    }
    AtAfterStore(codec, ledger, k, n, PoolKey(contract));
  }

  lemma PoolIsNoBalance(contract: seq<Byte>, account: string)
    ensures IsBalanceKey(contract, AccountKey(contract, account))
    ensures !IsBalanceKey(contract, PoolKey(contract))
    ensures AccountKey(contract, account) != PoolKey(contract)
  {
    assert BalanceKey("")[0] == 'b' && ALLOCATED_POOL_STATE_VARIABLE[0] == 'a';
  }

  lemma SoundAccount(codec: Codec, contract: seq<Byte>, ledger: Ledger, account: string)
    requires Sound(codec, contract, ledger)
    ensures var k := AccountKey(contract, account);
            IsNumber(codec, Get(ledger, k)) && 0 <= At(codec, ledger, k) <= MAX_SAFE_INTEGER
  {
    PoolIsNoBalance(contract, account);
  }

  lemma TransferKeepsSound(codec: Codec, contract: seq<Byte>, ledger: Ledger, sender: string, recipient: string,
                           amount: int)
    requires RoundTrips(codec) && Sound(codec, contract, ledger)
    requires Covered(codec, contract, ledger, sender, Text(recipient), Amount(amount))
    ensures Sound(codec, contract, Moved(codec, contract, ledger, sender, recipient, amount))
  {
    var ks, kr := AccountKey(contract, sender), AccountKey(contract, recipient);
    var s, r := At(codec, ledger, ks), At(codec, ledger, kr);
    PoolIsNoBalance(contract, sender);
    PoolIsNoBalance(contract, recipient);
    SoundAccount(codec, contract, ledger, sender);
    SoundAccount(codec, contract, ledger, recipient);
    StoreKeepsSound(codec, contract, ledger, ks, s - amount);
    StoreKeepsSound(codec, contract, ledger[ks := codec.stringify(s - amount)], kr, r + amount);
  }

  lemma TotalAfterTwo(codec: Codec, contract: seq<Byte>, ledger: Ledger, k: StateKey, m: int, j: StateKey, n: int)
    requires RoundTrips(codec) && IsBalanceKey(contract, k) && IsBalanceKey(contract, j)
    ensures TotalOf(codec, contract, ledger[k := codec.stringify(m)][j := codec.stringify(n)]) ==
            TotalOf(codec, contract, ledger) + m - At(codec, ledger, k) + n
            - (if j == k then m else At(codec, ledger, j))
  {
    TotalAfterStore(codec, contract, ledger, k, m);
    TotalAfterStore(codec, contract, ledger[k := codec.stringify(m)], j, n);
    AtAfterStore(codec, ledger, k, m, j);
  }

  lemma MoveTotal(codec: Codec, contract: seq<Byte>, ledger: Ledger, k: StateKey, j: StateKey, amount: int)
    requires RoundTrips(codec) && IsBalanceKey(contract, k) && IsBalanceKey(contract, j)
    ensures var m, n := At(codec, ledger, k) - amount, At(codec, ledger, j) + amount;
            TotalOf(codec, contract, ledger[k := codec.stringify(m)][j := codec.stringify(n)]) ==
            TotalOf(codec, contract, ledger) + if j == k then amount else 0
  {
    TotalAfterTwo(codec, contract, ledger, k, At(codec, ledger, k) - amount, j, At(codec, ledger, j) + amount);
  }

  lemma AccountKeysDiffer(contract: seq<Byte>, a: string, b: string)
    ensures AccountKey(contract, a) == AccountKey(contract, b) <==> a == b
  {
    if a != b {
      DifferentAccounts(contract, a, b);
    }
  }

  lemma TransferTotal(codec: Codec, contract: seq<Byte>, ledger: Ledger, sender: string, recipient: string, amount: int)
    requires RoundTrips(codec)
    ensures TotalOf(codec, contract, Moved(codec, contract, ledger, sender, recipient, amount)) ==
            TotalOf(codec, contract, ledger) + if sender == recipient then amount else 0
  {
    PoolIsNoBalance(contract, sender);
    PoolIsNoBalance(contract, recipient);
    AccountKeysDiffer(contract, sender, recipient);
    MoveTotal(codec, contract, ledger, AccountKey(contract, sender), AccountKey(contract, recipient), amount);
  }

  /**
   A covered transfer keeps the token sound, and keeps the sum of all balances exactly when the
   sender is not the recipient: paying oneself creates the amount paid.
   */
  lemma TransferKeeps(codec: Codec, contract: seq<Byte>, ledger: Ledger, sender: string, recipient: string, amount: int)
    requires RoundTrips(codec) && Sound(codec, contract, ledger)
    requires Covered(codec, contract, ledger, sender, Text(recipient), Amount(amount))
    ensures var ledger' := Moved(codec, contract, ledger, sender, recipient, amount);
            && Sound(codec, contract, ledger')
            && (TotalOf(codec, contract, ledger') == TotalOf(codec, contract, ledger) <==> sender != recipient)
  {
    TransferKeepsSound(codec, contract, ledger, sender, recipient, amount);
    TransferTotal(codec, contract, ledger, sender, recipient, amount);
  }

  lemma DifferentAccounts(contract: seq<Byte>, a: string, b: string)
    requires a != b
    ensures AccountKey(contract, a) != AccountKey(contract, b)
  {
    var n := |BalanceKey("")|;
    assert BalanceKey(a)[n..] == a && BalanceKey(b)[n..] == b;
  }

  /** Financing keeps the token sound, sets one balance, and takes one grant out of the pool. */
  lemma FinanceKeeps(codec: Codec, contract: seq<Byte>, ledger: Ledger, account: string)
    requires RoundTrips(codec) && Sound(codec, contract, ledger)
    ensures var ledger' := Financed(codec, contract, ledger, account);
            && Sound(codec, contract, ledger')
            && TotalOf(codec, contract, ledger') ==
               TotalOf(codec, contract, ledger) + DEFAULT_BALANCE - At(codec, ledger, AccountKey(contract, account))
            && At(codec, ledger', PoolKey(contract)) == PoolAfter(At(codec, ledger, PoolKey(contract)), DEFAULT_BALANCE)
  {
    var k, pool := AccountKey(contract, account), PoolKey(contract);
    var p := PoolAfter(At(codec, ledger, pool), DEFAULT_BALANCE);
    PoolIsNoBalance(contract, account);
    var ledger1 := ledger[k := codec.stringify(DEFAULT_BALANCE)];
    StoreKeepsSound(codec, contract, ledger, k, DEFAULT_BALANCE);
    AtAfterStore(codec, ledger, k, DEFAULT_BALANCE, pool);
    assert p % DEFAULT_BALANCE == 0;
    StoreKeepsSound(codec, contract, ledger1, pool, p);
    TotalAfterStore(codec, contract, ledger, k, DEFAULT_BALANCE);
    TotalAfterStore(codec, contract, ledger1, pool, p);
    AtAfterStore(codec, ledger1, pool, p, pool);
  }

  // What the calls do, balance by balance

  lemma BalancesMoved(codec: Codec, contract: seq<Byte>, ledger: Ledger, sender: string, recipient: string, amount: int,
                      k: StateKey)
    requires RoundTrips(codec)
    ensures var after := Moved(codec, contract, ledger, sender, recipient, amount);
            var from, to := AccountKey(contract, sender), AccountKey(contract, recipient);
            && At(codec, after, to) == At(codec, ledger, to) + amount
            && (sender != recipient ==> At(codec, after, from) == At(codec, ledger, from) - amount)
            && (k != from && k != to ==> Get(after, k) == Get(ledger, k))
  {
    AccountKeysDiffer(contract, sender, recipient);
  }

  /**
   A transfer succeeds exactly when a positive amount is sent that the sender has and the recipient has
   room for; it then takes the amount from the one, gives it to the other and touches nothing else.
   */
  lemma TransferEffect(codec: Codec, sender: string, recipient: Argument, amount: Argument,
                       contract: seq<Byte>, ledger: Ledger, k: StateKey)
    requires RoundTrips(codec) && Sound(codec, contract, ledger)
    ensures var x := Run(Transfer(codec, sender, recipient, amount), [], contract, ledger, {});
            var from := StateKey(contract, "balances." + sender);
            (x.outcome == Succeeded <==>
              && recipient.Text? && amount.Amount? && 0 < amount.n <= At(codec, ledger, from)
              && At(codec, ledger, StateKey(contract, "balances." + recipient.s)) + amount.n < 0x20_0000_0000_0000)
            && (x.outcome == Succeeded ==>
                  var to := StateKey(contract, "balances." + recipient.s);
                  && At(codec, x.ledger, to) == At(codec, ledger, to) + amount.n
                  && (sender != recipient.s ==> At(codec, x.ledger, from) == At(codec, ledger, from) - amount.n)
                  && (k != from && k != to ==> Get(x.ledger, k) == Get(ledger, k)))
            && (x.outcome != Succeeded ==> x.outcome == Rejected && x.ledger == ledger)
  {
    RunTransfer(codec, sender, recipient, amount, contract, ledger, {});
    if Covered(codec, contract, ledger, sender, recipient, amount) {
      BalancesMoved(codec, contract, ledger, sender, recipient.s, amount.n, k);
    }
  }

  lemma AccountFinanced(codec: Codec, contract: seq<Byte>, ledger: Ledger, account: string, k: StateKey)
    requires RoundTrips(codec)
    ensures var after := Financed(codec, contract, ledger, account);
            var balance, pool := AccountKey(contract, account), PoolKey(contract);
            && At(codec, after, balance) == DEFAULT_BALANCE
            && At(codec, after, pool) == PoolAfter(At(codec, ledger, pool), DEFAULT_BALANCE)
            && (k != balance && k != pool ==> Get(after, k) == Get(ledger, k))
  {
    PoolIsNoBalance(contract, account);
  }

  /**
   Financing sets a balance to 10000, takes 10000 from the pool, which starts over at 20 billion, and
   touches nothing else.
   */
  lemma FinanceEffect(codec: Codec, account: string, contract: seq<Byte>, ledger: Ledger, k: StateKey)
    requires RoundTrips(codec) && Sound(codec, contract, ledger)
    ensures var x := Run(FinanceAccount(codec, Text(account)), [], contract, ledger, {});
            var balance, pool := StateKey(contract, "balances." + account), StateKey(contract, "atn_pool");
            && x.outcome == Succeeded
            && At(codec, x.ledger, balance) == 10_000
            && At(codec, x.ledger, pool) ==
               (if At(codec, ledger, pool) == 0 then 20_000_000_000 else At(codec, ledger, pool)) - 10_000
            && (k != balance && k != pool ==> Get(x.ledger, k) == Get(ledger, k))
  {
    RunFinanceAccount(codec, Text(account), contract, ledger, {});
    AccountFinanced(codec, contract, ledger, account, k);
  }

  // Unreadable states

  /** A text that is no JSON is an unexpected error, one that is no number an expected one; the sender's comes first. */
  lemma UnreadableAccounts(codec: Codec, sender: string, recipient: string, amount: int,
                           contract: seq<Byte>, ledger: Ledger, written: set<StateKey>)
    requires amount > 0
    ensures var x := Run(Transfer(codec, sender, Text(recipient), Amount(amount)), [], contract, ledger, written);
            var from, to := StateKey(contract, "balances." + sender), StateKey(contract, "balances." + recipient);
            && (from in ledger && codec.parse(ledger[from]) == None ==> x == Execution(Crashed, ledger, written))
            && (from in ledger && codec.parse(ledger[from]) == Some(Other) ==>
                  x == Execution(Rejected, ledger, written))
            && (IsNumber(codec, Get(ledger, from)) && At(codec, ledger, from) >= amount && to in ledger ==>
                  && (codec.parse(ledger[to]) == None ==> x == Execution(Crashed, ledger, written))
                  && (codec.parse(ledger[to]) == Some(Other) ==> x == Execution(Rejected, ledger, written)))
  {
    TransferComesTo(codec, sender, Text(recipient), Amount(amount), contract, ledger, written);
  }

  /** Arguments of the wrong type, and amounts that are not positive, are refused whatever is stored. */
  lemma WrongArguments(codec: Codec, sender: string, recipient: Argument, amount: Argument,
                       contract: seq<Byte>, ledger: Ledger, written: set<StateKey>)
    ensures !recipient.Text? || !amount.Amount? || amount.n <= 0 ==>
              Run(Transfer(codec, sender, recipient, amount), [], contract, ledger, written) ==
              Execution(Rejected, ledger, written)
    ensures !recipient.Text? ==>
              Run(FinanceAccount(codec, recipient), [], contract, ledger, written) ==
              Execution(Rejected, ledger, written)
  {
  }

  /** A pool that is no JSON is an unexpected error; one that is no number is used as JavaScript would. */
  lemma UnreadablePool(codec: Codec, amount: int, contract: seq<Byte>, ledger: Ledger, written: set<StateKey>)
    requires RoundTrips(codec)
    ensures var x := Run(ReduceFromPool(codec, amount), [], contract, ledger, written);
            var pool := StateKey(contract, "atn_pool");
            pool in ledger ==>
              && (codec.parse(ledger[pool]) == None ==> x == Execution(Crashed, ledger, written))
              && (codec.parse(ledger[pool]) == Some(Other) ==>
                    && x.outcome == Succeeded && pool in x.ledger
                    && x.ledger[pool] ==
                       if codec.equalsZero(ledger[pool]) then codec.stringify(20_000_000_000 - amount)
                       else codec.minus(ledger[pool], amount))
  {
    RunReduceFromPool(codec, amount, contract, ledger, written);
  }

  // Runs

  /** The calls that keep the token: transfers, financing, and anything that only reads. */
  datatype Request =
    | TransferRequest(sender: string, recipient: Argument, amount: Argument)
    | FinanceRequest(account: Argument)
    | ReadRequest(program: Program)

  function ProgramOf(codec: Codec, request: Request): Program {
    match request
    case TransferRequest(sender, recipient, amount) => Transfer(codec, sender, recipient, amount)
    case FinanceRequest(account) => FinanceAccount(codec, account)
    case ReadRequest(program) => program
  }

  predicate ReadOnly(p: Program) {
    match p
    case Succeed => true
    case Throw(_) => true
    case Load(_, next) => ReadOnly(next)
    case Store(_, _, _) => false
    case Branch(_, yes, no) => ReadOnly(yes) && ReadOnly(no)
  }

  /** Asking for a balance: the load and the parsing of what it finds. */
  function GetBalance(codec: Codec, account: string): Program {
    Load(_ => BalanceKey(account), Parsed(codec, 0, Succeed))
  }

  lemma {:induction false} ReadOnlyRun(p: Program, env: Env, contract: seq<Byte>, ledger: Ledger,
                                       written: set<StateKey>)
    requires ReadOnly(p)
    ensures var x := Run(p, env, contract, ledger, written);
            x == Execution(x.outcome, ledger, written)
    decreases p
  {
    match p
    case Succeed =>
    case Throw(_) =>
    case Load(key, next) =>
      ReadOnlyRun(next, env + [Get(ledger, StateKey(contract, key(env)))], contract, ledger, written);
    case Branch(condition, yes, no) =>
      ReadOnlyRun(if condition(env) then yes else no, env, contract, ledger, written);
  }

  /** The call is of another contract, or is the given request to the token. */
  ghost predicate Serves(codec: Codec, contract: seq<Byte>, call: Call, request: Request) {
    call.contractAddress == contract ==>
      call.program == ProgramOf(codec, request) && (request.ReadRequest? ==> ReadOnly(request.program))
  }

  predicate PaysSelf(request: Request) {
    request.TransferRequest? && request.recipient == Text(request.sender)
  }

  /** The request creates no money: a transfer to somebody else, or a read. */
  predicate Conserves(request: Request) {
    !request.FinanceRequest? && !PaysSelf(request)
  }

  lemma SoundFrame(codec: Codec, contract: seq<Byte>, a: Ledger, b: Ledger)
    requires forall k: StateKey :: k.contractAddress == contract ==> Get(a, k) == Get(b, k)
    ensures Sound(codec, contract, a) ==> Sound(codec, contract, b)
    ensures TotalOf(codec, contract, a) == TotalOf(codec, contract, b)
  {
    forall k: StateKey | k.contractAddress == contract
      ensures Get(a, k) == Get(b, k) && At(codec, a, k) == At(codec, b, k) && (k in a <==> k in b)
    {
    }
    assert Balances(codec, contract, a) == Balances(codec, contract, b);
  }

  /** The token is sound after as it was before, and nothing was created unless `free`. */
  ghost predicate Keeps(codec: Codec, contract: seq<Byte>, before: Ledger, after: Ledger, free: bool) {
    && Sound(codec, contract, after)
    && (free || TotalOf(codec, contract, after) == TotalOf(codec, contract, before))
  }

  lemma CoveredKeeps(codec: Codec, sender: string, recipient: Argument, amount: Argument, contract: seq<Byte>,
                     ledger: Ledger)
    requires RoundTrips(codec) && Sound(codec, contract, ledger)
    requires Covered(codec, contract, ledger, sender, recipient, amount)
    ensures Keeps(codec, contract, ledger, Moved(codec, contract, ledger, sender, recipient.s, amount.n),
                  recipient == Text(sender))
  {
    assert recipient == Text(recipient.s) && amount == Amount(amount.n);
    TransferKeeps(codec, contract, ledger, sender, recipient.s, amount.n);
  }

  lemma TransferOutcomeKeeps(codec: Codec, sender: string, recipient: Argument, amount: Argument,
                             contract: seq<Byte>, ledger: Ledger, after: Ledger)
    requires RoundTrips(codec) && Sound(codec, contract, ledger)
    requires after == if Covered(codec, contract, ledger, sender, recipient, amount)
                      then Moved(codec, contract, ledger, sender, recipient.s, amount.n) else ledger
    ensures Keeps(codec, contract, ledger, after, recipient == Text(sender))
  {
    if Covered(codec, contract, ledger, sender, recipient, amount) {
      CoveredKeeps(codec, sender, recipient, amount, contract, ledger);
    }
  }

  lemma TransferRequestKeeps(codec: Codec, sender: string, recipient: Argument, amount: Argument,
                             contract: seq<Byte>, ledger: Ledger, written: set<StateKey>, x: Execution)
    requires RoundTrips(codec) && Sound(codec, contract, ledger)
    requires x == Run(Transfer(codec, sender, recipient, amount), [], contract, ledger, written)
    ensures x.outcome != Crashed
    ensures Keeps(codec, contract, ledger, x.ledger, recipient == Text(sender))
  {
    RunTransfer(codec, sender, recipient, amount, contract, ledger, written);
    TransferOutcomeKeeps(codec, sender, recipient, amount, contract, ledger, x.ledger);
  }

  lemma FinanceRequestKeeps(codec: Codec, account: Argument, contract: seq<Byte>, ledger: Ledger,
                            written: set<StateKey>, x: Execution)
    requires RoundTrips(codec) && Sound(codec, contract, ledger)
    requires x == Run(FinanceAccount(codec, account), [], contract, ledger, written)
    ensures x.outcome != Crashed
    ensures Keeps(codec, contract, ledger, x.ledger, true)
  {
    RunFinanceAccount(codec, account, contract, ledger, written);
    if account.Text? {
      FinanceKeeps(codec, contract, ledger, account.s);
    }
  }

  /** A transfer or a financing never fails unexpectedly, and every request keeps the token. */
  lemma RequestKeeps(codec: Codec, contract: seq<Byte>, ledger: Ledger, written: set<StateKey>, request: Request,
                     x: Execution)
    requires RoundTrips(codec) && Sound(codec, contract, ledger)
    requires x == Run(ProgramOf(codec, request), [], contract, ledger, written)
    requires request.ReadRequest? ==> ReadOnly(request.program)
    ensures x.outcome == Crashed ==> request.ReadRequest?
    ensures Keeps(codec, contract, ledger, x.ledger, !Conserves(request))
  {
    match request
    case TransferRequest(sender, recipient, amount) =>
      TransferRequestKeeps(codec, sender, recipient, amount, contract, ledger, written, x);
    case FinanceRequest(account) =>
      FinanceRequestKeeps(codec, account, contract, ledger, written, x);
    case ReadRequest(program) =>
      ReadOnlyRun(program, [], contract, ledger, written);
  }

  lemma LedgerOfNext(before: SetRun, call: Call)
    ensures var x := Run(call.program, [], call.contractAddress, before.ledger, before.written);
            RunNext(before, call).ledger == if x.outcome == Succeeded then x.ledger else before.ledger
  {
  }

  lemma OtherCallKeeps(codec: Codec, contract: seq<Byte>, before: SetRun, call: Call)
    requires Sound(codec, contract, before.ledger) && call.contractAddress != contract
    requires forall k :: k in before.written ==> k in before.ledger
    ensures Keeps(codec, contract, before.ledger, RunNext(before, call).ledger, false)
  {
    LedgerOfNext(before, call);
    RunFrame(call.program, [], call.contractAddress, before.ledger, before.written);
    SoundFrame(codec, contract, before.ledger, RunNext(before, call).ledger);
  }

  /** One call of a run, to the token or to another contract. */
  lemma CallKeeps(codec: Codec, contract: seq<Byte>, before: SetRun, call: Call, request: Request)
    requires RoundTrips(codec) && Sound(codec, contract, before.ledger)
    requires forall k :: k in before.written ==> k in before.ledger
    requires Serves(codec, contract, call, request)
    ensures Keeps(codec, contract, before.ledger, RunNext(before, call).ledger,
                  call.contractAddress == contract && !Conserves(request))
  {
    if call.contractAddress == contract {
      LedgerOfNext(before, call);
      var x := Run(call.program, [], contract, before.ledger, before.written);
      RequestKeeps(codec, contract, before.ledger, before.written, request, x);
    } else {
      OtherCallKeeps(codec, contract, before, call);
    }
  }

  /**
   Over any run that mixes token requests with calls of other contracts the token stays sound, and
   the sum of all balances stays the same as long as the token is only read or asked for transfers
   to others.
   */
  lemma {:induction false} TokenRun(codec: Codec, contract: seq<Byte>, calls: seq<Call>, requests: seq<Request>,
                                    ledger: Ledger)
    requires RoundTrips(codec) && Sound(codec, contract, ledger)
    requires |calls| == |requests|
    requires forall i :: 0 <= i < |calls| ==> Serves(codec, contract, calls[i], requests[i])
    ensures Sound(codec, contract, RunSet(calls, ledger).ledger)
    ensures (forall i :: 0 <= i < |calls| && calls[i].contractAddress == contract ==> Conserves(requests[i])) ==>
            TotalOf(codec, contract, RunSet(calls, ledger).ledger) == TotalOf(codec, contract, ledger)
  {
    if calls != [] {
      var n := |calls| - 1;
      TokenRun(codec, contract, calls[..n], requests[..n], ledger);
      RunSetFrame(calls[..n], ledger);
      var before := RunSet(calls[..n], ledger);
      if !before.crashed {
        CallKeeps(codec, contract, before, calls[n], requests[n]);
      }
    }
  }

  /** Nothing stored is a sound start, so every state a token run reaches from there is sound. */
  lemma EmptyIsSound(codec: Codec, contract: seq<Byte>)
    ensures Sound(codec, contract, map[]) && TotalOf(codec, contract, map[]) == 0
  {
    assert Balances(codec, contract, map[]) == map[];
  }

  // Methods the contract does not mean to offer

  /** The text is that of a balance a sound token may hold. */
  predicate IsSafeBalance(codec: Codec, text: string) {
    IsNumber(codec, Some(text)) && 0 <= NumberAt(codec, [Some(text)], 0) <= MAX_SAFE_INTEGER
  }

  /** The text is that of a pool a sound token may hold. */
  predicate IsFittingPool(codec: Codec, text: string) {
    && IsNumber(codec, Some(text))
    && NumberAt(codec, [Some(text)], 0) % DEFAULT_BALANCE == 0
    && 0 <= NumberAt(codec, [Some(text)], 0) <= POOL_INITIAL_VALUE - DEFAULT_BALANCE
  }

  /** Storing a text under one key keeps the token sound exactly when the text fits that key. */
  lemma DirectStoreIff(codec: Codec, contract: seq<Byte>, ledger: Ledger, k: StateKey, text: string)
    requires Sound(codec, contract, ledger)
    ensures Sound(codec, contract, ledger[k := text]) <==>
            && (IsBalanceKey(contract, k) ==> IsSafeBalance(codec, text))
            && (k == PoolKey(contract) ==> IsFittingPool(codec, text))
  {
    var after := ledger[k := text];
    assert Get(after, k) == Some(text);
    forall j | j != k
      ensures Get(after, j) == Get(ledger, j)
    {
    }
  }

  /** `setBalance` called from outside: the payload names the method, and nothing is checked. */
  function SetBalance(account: string, text: string): Program {
    Store(_ => BalanceKey(account), _ => text, Succeed)
  }

  /** `setPoolBalance` called from outside. */
  function SetPoolBalance(text: string): Program {
    Store(_ => ALLOCATED_POOL_STATE_VARIABLE, _ => text, Succeed)
  }

  /** One outside call of `setBalance` keeps the token sound exactly when it sets a safe balance. */
  lemma SetBalanceKeepsIff(codec: Codec, account: string, text: string, contract: seq<Byte>, ledger: Ledger,
                           written: set<StateKey>)
    requires Sound(codec, contract, ledger)
    ensures var x := Run(SetBalance(account, text), [], contract, ledger, written);
            x.outcome == Succeeded && (Sound(codec, contract, x.ledger) <==> IsSafeBalance(codec, text))
  {
    PoolIsNoBalance(contract, account);
    assert Run(SetBalance(account, text), [], contract, ledger, written).ledger ==
           ledger[AccountKey(contract, account) := text];
    DirectStoreIff(codec, contract, ledger, AccountKey(contract, account), text);
  }

  /** One outside call of `setPoolBalance` keeps the token sound exactly when it sets a fitting pool. */
  lemma SetPoolBalanceKeepsIff(codec: Codec, text: string, contract: seq<Byte>, ledger: Ledger, written: set<StateKey>)
    requires Sound(codec, contract, ledger)
    ensures var x := Run(SetPoolBalance(text), [], contract, ledger, written);
            x.outcome == Succeeded && (Sound(codec, contract, x.ledger) <==> IsFittingPool(codec, text))
  {
    PoolIsNoBalance(contract, "");
    assert Run(SetPoolBalance(text), [], contract, ledger, written).ledger == ledger[PoolKey(contract) := text];
    DirectStoreIff(codec, contract, ledger, PoolKey(contract), text);
  }

  /** One outside call of `reduceFromPool` keeps the token sound exactly when the pool left still fits. */
  lemma ReduceFromPoolKeepsIff(codec: Codec, amount: int, contract: seq<Byte>, ledger: Ledger, written: set<StateKey>)
    requires RoundTrips(codec) && Sound(codec, contract, ledger)
    ensures var x := Run(ReduceFromPool(codec, amount), [], contract, ledger, written);
            var pool := PoolAfter(At(codec, ledger, PoolKey(contract)), amount);
            && x.outcome == Succeeded
            && (Sound(codec, contract, x.ledger) <==>
                  pool % DEFAULT_BALANCE == 0 && 0 <= pool <= POOL_INITIAL_VALUE - DEFAULT_BALANCE)
  {
    var pool := PoolAfter(At(codec, ledger, PoolKey(contract)), amount);
    RunReduceFromPool(codec, amount, contract, ledger, written);
    ReduceNumber(codec, amount, contract, ledger, written);
    PoolIsNoBalance(contract, "");
    DirectStoreIff(codec, contract, ledger, PoolKey(contract), codec.stringify(pool));
  }

  /** Asking for a balance is one of the requests that keep the token. */
  lemma GetBalanceReads(codec: Codec, account: string)
    ensures ReadOnly(GetBalance(codec, account))
  {
  }
}
