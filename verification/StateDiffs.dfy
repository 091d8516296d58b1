// State diffs, and the contract state they lead to.
module StateDiffs {
  import opened Wrappers
  import opened StateKeys
  import opened Contracts

  /** Applying a state diff, in order. */
  function Apply(ledger: Ledger, diff: seq<Modified>): Ledger {
    if diff == [] then ledger
    else
      var last := diff[|diff| - 1];
      Apply(ledger, diff[..|diff| - 1])[last.key := last.value]
  }

  function KeysOf(diff: seq<Modified>): (r: set<StateKey>)
    ensures forall k :: k in r <==> exists i :: 0 <= i < |diff| && diff[i].key == k
  {
    set i | 0 <= i < |diff| :: diff[i].key
  }

  /** The diff lists the written keys, each once, with their values in the ledger. */
  ghost predicate IsDiff(diff: seq<Modified>, ledger: Ledger, written: set<StateKey>) {
    && (forall i, j :: 0 <= i < j < |diff| ==> diff[i].key != diff[j].key)
    && KeysOf(diff) == written
    && (forall i :: 0 <= i < |diff| ==> Get(ledger, diff[i].key) == Some(diff[i].value))
  }

  lemma {:induction false} ApplyFrame(ledger: Ledger, diff: seq<Modified>, k: StateKey)
    requires k !in KeysOf(diff)
    ensures Get(Apply(ledger, diff), k) == Get(ledger, k)
  {
    if diff != [] {
      var init := diff[..|diff| - 1];
      KeysOfOneMore(diff);
      ApplyFrame(ledger, init, k);
    }
  }

  lemma {:induction false} ApplyHit(ledger: Ledger, diff: seq<Modified>, i: nat)
    requires i < |diff|
    requires forall j :: i < j < |diff| ==> diff[j].key != diff[i].key
    ensures Get(Apply(ledger, diff), diff[i].key) == Some(diff[i].value)
  {
    if i < |diff| - 1 {
      ApplyHit(ledger, diff[..|diff| - 1], i);
    }
  }

  /** Applying the diff of a run to the state it started from gives the state it ended in. */
  lemma ApplyDiffOfRun(storage: Ledger, diff: seq<Modified>, ledger: Ledger, written: set<StateKey>)
    requires IsDiff(diff, ledger, written)
    requires forall k :: k !in written ==> Get(ledger, k) == Get(storage, k)
    ensures Apply(storage, diff) == ledger
  {
    var applied := Apply(storage, diff);
    forall k: StateKey
      ensures Get(applied, k) == Get(ledger, k)
    {
      if k in written {
        var i :| 0 <= i < |diff| && diff[i].key == k;
        ApplyHit(storage, diff, i);
      } else {
        ApplyFrame(storage, diff, k);
      }
    }
    SameLedger(applied, ledger);
  }

  lemma SameLedger(a: Ledger, b: Ledger)
    requires forall k: StateKey :: Get(a, k) == Get(b, k)
    ensures a == b
  {
    forall k: StateKey
      ensures (k in a <==> k in b) && (k in a ==> a[k] == b[k])
    {
      assert Get(a, k) == Get(b, k);
    }
  }

  lemma KeysOfOneMore(items: seq<Modified>)
    requires items != []
    ensures KeysOf(items) == KeysOf(items[..|items| - 1]) + {items[|items| - 1].key}
  {
    var init := items[..|items| - 1];
    forall k | k in KeysOf(items)
      ensures k in KeysOf(init) + {items[|items| - 1].key}
    {
      var i :| 0 <= i < |items| && items[i].key == k;
      if i < |init| {
        assert init[i].key == k;
      }
    }
    forall k | k in KeysOf(init)
      ensures k in KeysOf(items)
    {
      var i :| 0 <= i < |init| && init[i].key == k;
      assert items[i].key == k;
    }
  }

  lemma WithKeysOfOneMore(written: set<StateKey>, items: seq<Modified>)
    requires items != []
    ensures written + KeysOf(items) == written + KeysOf(items[..|items| - 1]) + {items[|items| - 1].key}
  {
    KeysOfOneMore(items);
  }
}
