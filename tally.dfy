/** A JavaScript object used as a dictionary of running totals
    (`if (!d[k]) d[k] = 0; d[k] += a;`), read back with `Object.entries`:
    an association list that keeps keys in first-insertion order. */
module Tally {
  import opened Seqs

  datatype Entry = Entry(key: string, amount: real)

  function AmountOf(e: Entry): real { e.amount }

  function KeyOf(e: Entry): string { e.key }

  /** The summand that counts only the entries of key `k`. */
  function AmountIf(k: string): Entry -> real
  {
    (e: Entry) => if e.key == k then e.amount else 0.0
  }

  /** The keys present, `Object.keys(d)` as a set. */
  function Keys(entries: seq<Entry>): set<string>
  {
    if entries == [] then {} else {entries[0].key} + Keys(entries[1..])
  }

  /** No key appears twice. */
  predicate DistinctKeys(entries: seq<Entry>)
  {
    entries == [] || (entries[0].key !in Keys(entries[1..]) && DistinctKeys(entries[1..]))
  }

  /** One `d[k] += a` step. */
  function Bump(entries: seq<Entry>, k: string, a: real): seq<Entry>
  {
    if entries == [] then [Entry(k, a)]
    else if entries[0].key == k then [Entry(k, entries[0].amount + a)] + entries[1..]
    else [entries[0]] + Bump(entries[1..], k, a)
  }

  /** The dictionary after adding every pair, in order. */
  function Totals(pairs: seq<Entry>): seq<Entry>
  {
    if pairs == [] then []
    else Bump(Totals(pairs[..|pairs| - 1]), pairs[|pairs| - 1].key, pairs[|pairs| - 1].amount)
  }

  /** The total recorded for `k` across all pairs. */
  function KeyTotal(pairs: seq<Entry>, k: string): real
  {
    Sum(pairs, AmountIf(k))
  }

  lemma {:induction false} KeysAppend(a: seq<Entry>, b: seq<Entry>)
    ensures Keys(a + b) == Keys(a) + Keys(b)
    decreases |a|
  {
    if a != [] {
      assert (a + b)[1..] == a[1..] + b;
      KeysAppend(a[1..], b);
    } else {
      assert a + b == b;
    }
  }

  /** Bumping adds `k` to the keys and keeps them distinct. */
  lemma {:induction false} BumpKeys(entries: seq<Entry>, k: string, a: real)
    ensures Keys(Bump(entries, k, a)) == Keys(entries) + {k}
    ensures DistinctKeys(entries) ==> DistinctKeys(Bump(entries, k, a))
    decreases |entries|
  {
    if entries == [] {
      assert Keys([Entry(k, a)]) == {k} + Keys([]);
    } else if entries[0].key == k {
      var b := Bump(entries, k, a);
      assert b[1..] == entries[1..];
    } else {
      BumpKeys(entries[1..], k, a);
      var b := Bump(entries, k, a);
      assert b[1..] == Bump(entries[1..], k, a);
    }
  }

  /** Adding `a` under `k` raises the total of `k` by `a` and no other. */
  lemma {:induction false} BumpAmount(entries: seq<Entry>, k: string, a: real, q: string)
    ensures Sum(Bump(entries, k, a), AmountIf(q)) == Sum(entries, AmountIf(q)) + (if q == k then a else 0.0)
    decreases |entries|
  {
    if entries == [] {
      SumSingleton(Entry(k, a), AmountIf(q));
    } else if entries[0].key == k {
      SumCons(Entry(k, entries[0].amount + a), entries[1..], AmountIf(q));
      SumCons(entries[0], entries[1..], AmountIf(q));
      assert entries == [entries[0]] + entries[1..];
    } else {
      BumpAmount(entries[1..], k, a, q);
      SumCons(entries[0], Bump(entries[1..], k, a), AmountIf(q));
      SumCons(entries[0], entries[1..], AmountIf(q));
      assert entries == [entries[0]] + entries[1..];
    }
  }

  /** Adding `a` raises the grand total by `a`. */
  lemma {:induction false} BumpTotal(entries: seq<Entry>, k: string, a: real)
    ensures Sum(Bump(entries, k, a), AmountOf) == Sum(entries, AmountOf) + a
    decreases |entries|
  {
    if entries == [] {
      SumSingleton(Entry(k, a), AmountOf);
    } else if entries[0].key == k {
      SumCons(Entry(k, entries[0].amount + a), entries[1..], AmountOf);
      SumCons(entries[0], entries[1..], AmountOf);
      assert entries == [entries[0]] + entries[1..];
    } else {
      BumpTotal(entries[1..], k, a);
      SumCons(entries[0], Bump(entries[1..], k, a), AmountOf);
      SumCons(entries[0], entries[1..], AmountOf);
      assert entries == [entries[0]] + entries[1..];
    }
  }

  /** A key that is absent contributes nothing. */
  lemma {:induction false} ZeroAmount(entries: seq<Entry>, k: string)
    requires k !in Keys(entries)
    ensures Sum(entries, AmountIf(k)) == 0.0
    decreases |entries|
  {
    if entries != [] {
      ZeroAmount(entries[1..], k);
      SumCons(entries[0], entries[1..], AmountIf(k));
      assert entries == [entries[0]] + entries[1..];
    }
  }

  /** With distinct keys, the total of an entry's key is that entry's amount. */
  lemma {:induction false} DistinctAmount(entries: seq<Entry>, i: nat)
    requires DistinctKeys(entries) && i < |entries|
    ensures Sum(entries, AmountIf(entries[i].key)) == entries[i].amount
    decreases |entries|
  {
    var q := entries[i].key;
    SumCons(entries[0], entries[1..], AmountIf(q));
    assert entries == [entries[0]] + entries[1..];
    if i == 0 {
      ZeroAmount(entries[1..], q);
    } else {
      DistinctAmount(entries[1..], i - 1);
      assert entries[1..][i - 1] == entries[i];
      KeyIndex(entries[1..], i - 1);
    }
  }

  lemma {:induction false} KeyIndex(entries: seq<Entry>, i: nat)
    requires i < |entries|
    ensures entries[i].key in Keys(entries)
    decreases |entries|
  {
    if i > 0 {
      KeyIndex(entries[1..], i - 1);
      assert entries[1..][i - 1] == entries[i];
    }
  }

  lemma {:induction false} TallyKeys(pairs: seq<Entry>)
    ensures DistinctKeys(Totals(pairs))
    ensures Keys(Totals(pairs)) == Keys(pairs)
    decreases |pairs|
  {
    if pairs != [] {
      var init, last := pairs[..|pairs| - 1], pairs[|pairs| - 1];
      TallyKeys(init);
      BumpKeys(Totals(init), last.key, last.amount);
      assert pairs == init + [last];
      KeysAppend(init, [last]);
      assert Keys([last]) == {last.key} + Keys([]);
    }
  }

  lemma {:induction false} TallyTotal(pairs: seq<Entry>)
    ensures Sum(Totals(pairs), AmountOf) == Sum(pairs, AmountOf)
    decreases |pairs|
  {
    if pairs != [] {
      var init, last := pairs[..|pairs| - 1], pairs[|pairs| - 1];
      TallyTotal(init);
      BumpTotal(Totals(init), last.key, last.amount);
    }
  }

  /** What the dictionary holds after adding every pair: one entry per key,
      the keys are exactly the keys of the pairs, each entry holds the sum of
      its key's amounts, and the entries add up to the sum of all amounts. */
  lemma TallySpec(pairs: seq<Entry>)
    ensures DistinctKeys(Totals(pairs))
    ensures Keys(Totals(pairs)) == Keys(pairs)
    ensures forall i :: 0 <= i < |Totals(pairs)| ==> Totals(pairs)[i].amount == KeyTotal(pairs, Totals(pairs)[i].key)
    ensures Sum(Totals(pairs), AmountOf) == Sum(pairs, AmountOf)
  {
    TallyKeys(pairs);
    TallyTotal(pairs);
    var t := Totals(pairs);
    forall i | 0 <= i < |t| ensures t[i].amount == KeyTotal(pairs, t[i].key) {
      DistinctAmount(t, i);
      TallyAmount(pairs, t[i].key);
    }
  }

  /** The dictionary's total for any key equals the sum of that key's amounts. */
  lemma {:induction false} TallyAmount(pairs: seq<Entry>, q: string)
    ensures Sum(Totals(pairs), AmountIf(q)) == KeyTotal(pairs, q)
    decreases |pairs|
  {
    if pairs != [] {
      var init, last := pairs[..|pairs| - 1], pairs[|pairs| - 1];
      TallyAmount(init, q);
      BumpAmount(Totals(init), last.key, last.amount, q);
    }
  }
}
