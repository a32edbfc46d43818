// Grouping rows by a key and adding them up, and what no grouping can lose.

module Grouping {
  import opened Sums

  datatype Group<K> = Group(key: K, count: int, amount: int)

  function Select<R>(rows: seq<R>, wanted: R -> bool): (selected: seq<R>)
    ensures forall i :: 0 <= i < |selected| ==> selected[i] in rows && wanted(selected[i])
  {
    if rows == [] then []
    else
      var n := |rows| - 1;
      Select(rows[..n], wanted) + if wanted(rows[n]) then [rows[n]] else []
  }

  function Bump<K(==)>(groups: seq<Group<K>>, key: K, amount: int): seq<Group<K>> {
    if groups == [] then [Group(key, 1, amount)]
    else if groups[0].key == key then [Group(key, groups[0].count + 1, groups[0].amount + amount)] + groups[1..]
    else [groups[0]] + Bump(groups[1..], key, amount)
  }

  // A $group stage with a count and a sum.
  function GroupBy<R, K(==)>(rows: seq<R>, key: R -> K, amount: R -> int): seq<Group<K>> {
    if rows == [] then []
    else
      var n := |rows| - 1;
      Bump(GroupBy(rows[..n], key, amount), key(rows[n]), amount(rows[n]))
  }

  // The group of one key, or a zero: a key that no row has is not an absent number.
  function At<K(==)>(groups: seq<Group<K>>, key: K): (group: Group<K>)
    ensures group.key == key
  {
    if groups == [] then Group(key, 0, 0)
    else if groups[0].key == key then groups[0]
    else At(groups[1..], key)
  }

  function One<R>(): R -> int {
    (_: R) => 1
  }

  // A weighting of the rows of one key.
  function Keyed<R, K(==)>(key: R -> K, k: K, weight: R -> int): R -> int {
    (r: R) => if key(r) == k then weight(r) else 0
  }

  // A weighting of the rows whose key is on a list.
  function Listed<R, K(==)>(key: R -> K, keys: seq<K>, weight: R -> int): R -> int {
    (r: R) => if key(r) in keys then weight(r) else 0
  }

  // What the keys of a list add up to, each for itself.
  function PerKey<R, K(==)>(rows: seq<R>, key: R -> K, weight: R -> int): K -> int {
    (k: K) => Sum(rows, Keyed(key, k, weight))
  }

  function OnKey<K(==)>(k: K, amount: int): K -> int {
    (j: K) => if j == k then amount else 0
  }

  lemma {:induction false} BumpOne<K>(groups: seq<Group<K>>, key: K, amount: int, k: K)
    ensures At(Bump(groups, key, amount), k)
            == if k == key then Group(k, At(groups, k).count + 1, At(groups, k).amount + amount) else At(groups, k)
  {
    if groups != [] && groups[0].key != key {
      BumpOne(groups[1..], key, amount, k);
    }
  }

  // A key's group counts and adds up exactly the rows of that key.
  lemma {:induction false} GroupIsKeyed<R, K>(rows: seq<R>, key: R -> K, amount: R -> int, k: K)
    ensures var group := At(GroupBy(rows, key, amount), k);
            group.count == Sum(rows, Keyed(key, k, One())) && group.amount == Sum(rows, Keyed(key, k, amount))
  {
    if rows != [] {
      var n := |rows| - 1;
      GroupIsKeyed(rows[..n], key, amount, k);
      BumpOne(GroupBy(rows[..n], key, amount), key(rows[n]), amount(rows[n]), k);
    }
  }

  lemma {:induction false} SumBoth<T>(s: seq<T>, f: T -> int, g: T -> int, both: T -> int)
    requires forall i :: 0 <= i < |s| ==> both(s[i]) == f(s[i]) + g(s[i])
    ensures Sum(s, both) == Sum(s, f) + Sum(s, g)
  {
    if s != [] {
      var t := s[..|s| - 1];
      assert forall i :: 0 <= i < |t| ==> t[i] == s[i];
      SumBoth(t, f, g, both);
    }
  }

  lemma OnOneKey<K>(keys: seq<K>, k: K, amount: int)
    requires Distinct(keys)
    ensures Sum(keys, OnKey(k, amount)) == if k in keys then amount else 0
  {
  }

  // Added up key by key over a list without repeats, every listed row is counted exactly once.
  lemma {:induction false} KeysPartitionRows<R, K>(rows: seq<R>, key: R -> K, weight: R -> int, keys: seq<K>)
    requires Distinct(keys)
    ensures Sum(keys, PerKey(rows, key, weight)) == Sum(rows, Listed(key, keys, weight))
  {
    if rows == [] {
      SumZero(keys, PerKey(rows, key, weight));
    } else {
      var n := |rows| - 1;
      KeysPartitionRows(rows[..n], key, weight, keys);
      SumBoth(keys, PerKey(rows[..n], key, weight), OnKey(key(rows[n]), weight(rows[n])), PerKey(rows, key, weight));
      OnOneKey(keys, key(rows[n]), weight(rows[n]));
    }
  }

  function Count<K>(): Group<K> -> int {
    (g: Group<K>) => g.count
  }

  function Amount<K>(): Group<K> -> int {
    (g: Group<K>) => g.amount
  }

  lemma {:induction false} BumpTotals<K>(groups: seq<Group<K>>, key: K, amount: int)
    ensures Sum(Bump(groups, key, amount), Count()) == Sum(groups, Count()) + 1
    ensures Sum(Bump(groups, key, amount), Amount()) == Sum(groups, Amount()) + amount
  {
    if groups == [] {
      SumAppend([], Group(key, 1, amount), Count());
      SumAppend([], Group(key, 1, amount), Amount());
      assert [] + [Group(key, 1, amount)] == [Group(key, 1, amount)];
    } else {
      var first := if groups[0].key == key then Group(key, groups[0].count + 1, groups[0].amount + amount)
                   else groups[0];
      var rest := if groups[0].key == key then groups[1..] else Bump(groups[1..], key, amount);
      assert Bump(groups, key, amount) == [first] + rest && groups == [groups[0]] + groups[1..];
      SumConcat([first], rest, Count());
      SumConcat([first], rest, Amount());
      SumConcat([groups[0]], groups[1..], Count());
      SumConcat([groups[0]], groups[1..], Amount());
      if groups[0].key != key {
        BumpTotals(groups[1..], key, amount);
      }
    }
  }

  // Whatever the key, the groups together hold every row once.
  lemma {:induction false} GroupsHoldEveryRow<R, K>(rows: seq<R>, key: R -> K, amount: R -> int)
    ensures Sum(GroupBy(rows, key, amount), Count()) == |rows|
    ensures Sum(GroupBy(rows, key, amount), Amount()) == Sum(rows, amount)
  {
    if rows != [] {
      var n := |rows| - 1;
      GroupsHoldEveryRow(rows[..n], key, amount);
      BumpTotals(GroupBy(rows[..n], key, amount), key(rows[n]), amount(rows[n]));
    }
  }

  // One group for each listed key, zero-filled.
  function Fill<K(==)>(groups: seq<Group<K>>, keys: seq<K>): (points: seq<Group<K>>)
    ensures |points| == |keys|
    ensures forall i :: 0 <= i < |keys| ==> points[i] == At(groups, keys[i])
  {
    if keys == [] then [] else Fill(groups, keys[..|keys| - 1]) + [At(groups, keys[|keys| - 1])]
  }

  lemma {:induction false} FillTotals<R, K>(rows: seq<R>, key: R -> K, amount: R -> int, keys: seq<K>)
    ensures Sum(Fill(GroupBy(rows, key, amount), keys), Count()) == Sum(keys, PerKey(rows, key, One()))
    ensures Sum(Fill(GroupBy(rows, key, amount), keys), Amount()) == Sum(keys, PerKey(rows, key, amount))
  {
    if keys != [] {
      var n := |keys| - 1;
      FillTotals(rows, key, amount, keys[..n]);
      GroupIsKeyed(rows, key, amount, keys[n]);
      var groups := GroupBy(rows, key, amount);
      SumAppend(Fill(groups, keys[..n]), At(groups, keys[n]), Count());
      SumAppend(Fill(groups, keys[..n]), At(groups, keys[n]), Amount());
    }
  }

  // A zero-filled series over distinct keys counts exactly the rows whose key is on its axis.
  lemma SeriesCountsItsAxis<R, K>(rows: seq<R>, key: R -> K, amount: R -> int, keys: seq<K>)
    requires Distinct(keys)
    ensures Sum(Fill(GroupBy(rows, key, amount), keys), Count()) == Sum(rows, Listed(key, keys, One()))
    ensures Sum(Fill(GroupBy(rows, key, amount), keys), Amount()) == Sum(rows, Listed(key, keys, amount))
  {
    FillTotals(rows, key, amount, keys);
    KeysPartitionRows(rows, key, One(), keys);
    KeysPartitionRows(rows, key, amount, keys);
  }

  lemma {:induction false} CountIsLength<R>(rows: seq<R>)
    ensures Sum(rows, One()) == |rows|
  {
    if rows != [] {
      CountIsLength(rows[..|rows| - 1]);
    }
  }
}
