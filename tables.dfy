/**
 * The relational storage the DAOs talk to, as in-memory tables: a table is
 * the sequence of its rows in insertion order, and the SQL statements the
 * DAOs issue (`SELECT ... WHERE`, `UPDATE ... WHERE`, `DELETE ... WHERE`,
 * `INSERT`) are the functions below. A key is given as a named function from
 * a row to its key columns.
 */
module Tables {
  import opened Results

  /** No two rows share a key: the key is a primary key of the table. */
  ghost predicate UniqueBy<T, K>(s: seq<T>, key: T -> K) {
    forall i, j {:trigger key(s[i]), key(s[j])} | 0 <= i < j < |s| :: key(s[i]) != key(s[j])
  }

  /** `f` never changes the key of a row. */
  ghost predicate KeepsKey<T(!new), K>(key: T -> K, f: T -> T) {
    forall x :: key(f(x)) == key(x)
  }

  /** `SELECT * FROM t WHERE key = k` read with `db.get`: the first matching row, if any. */
  function FindBy<T, K(==)>(s: seq<T>, key: T -> K, k: K): (r: Option<T>)
    ensures r.Some? ==> r.value in s && key(r.value) == k
    ensures r.None? <==> forall i | 0 <= i < |s| :: key(s[i]) != k
  {
    if |s| == 0 then None
    else
      var r := FindBy(s[..|s| - 1], key, k);
      if r.Some? then r
      else if key(s[|s| - 1]) == k then Some(s[|s| - 1])
      else None
  }

  /** `SELECT * FROM t WHERE keep(row)` read with `db.all`: the matching rows, in table order. */
  function Filter<T(!new)>(s: seq<T>, keep: T -> bool): (r: seq<T>)
    ensures |r| <= |s|
    ensures forall x :: x in r <==> x in s && keep(x)
  {
    if |s| == 0 then []
    else Filter(s[..|s| - 1], keep) + (if keep(s[|s| - 1]) then [s[|s| - 1]] else [])
  }

  /** `DELETE FROM t WHERE key = k`. */
  function RemoveBy<T(!new), K(==)>(s: seq<T>, key: T -> K, k: K): (r: seq<T>)
    ensures |r| <= |s|
    ensures forall x :: x in r <==> x in s && key(x) != k
  {
    if |s| == 0 then []
    else RemoveBy(s[..|s| - 1], key, k) + (if key(s[|s| - 1]) == k then [] else [s[|s| - 1]])
  }

  /** `UPDATE t SET ... WHERE key = k`, with `f` the assignment applied to each matching row. */
  function UpdateBy<T(!new), K(==)>(s: seq<T>, key: T -> K, k: K, f: T -> T): (r: seq<T>)
    ensures |r| == |s|
    ensures forall i | 0 <= i < |s| :: r[i] == (if key(s[i]) == k then f(s[i]) else s[i])
  {
    seq(|s|, i requires 0 <= i < |s| => if key(s[i]) == k then f(s[i]) else s[i])
  }

  lemma FindAppend<T, K>(s: seq<T>, key: T -> K, x: T, k: K)
    ensures FindBy(s + [x], key, k)
         == if FindBy(s, key, k).Some? then FindBy(s, key, k) else if key(x) == k then Some(x) else None
  {
    assert (s + [x])[..|s|] == s;
  }

  /** With a primary key, looking a row's key up finds that very row. */
  lemma {:induction false} FindUnique<T, K>(s: seq<T>, key: T -> K, i: int)
    requires UniqueBy(s, key) && 0 <= i < |s|
    ensures FindBy(s, key, key(s[i])) == Some(s[i])
  {
    var init := s[..|s| - 1];
    if i == |s| - 1 {
      assert forall j | 0 <= j < |init| :: key(init[j]) != key(s[i]) by {
        forall j | 0 <= j < |init| ensures key(init[j]) != key(s[i]) {
          assert init[j] == s[j];
        }
      }
    } else {
      UniqueInit(s, key);
      assert init[i] == s[i];
      FindUnique(init, key, i);
    }
  }

  lemma {:induction false} FindUpdate<T(!new), K>(s: seq<T>, key: T -> K, k: K, f: T -> T, k2: K)
    requires KeepsKey(key, f)
    ensures FindBy(UpdateBy(s, key, k, f), key, k2)
         == match FindBy(s, key, k2)
            case None => None
            case Some(x) => Some(if k2 == k then f(x) else x)
  {
    if |s| > 0 {
      var u := UpdateBy(s, key, k, f);
      assert u[..|s| - 1] == UpdateBy(s[..|s| - 1], key, k, f);
      assert key(f(s[|s| - 1])) == key(s[|s| - 1]);
      FindUpdate(s[..|s| - 1], key, k, f, k2);
    }
  }

  lemma {:induction false} FindRemove<T(!new), K>(s: seq<T>, key: T -> K, k: K, k2: K)
    ensures FindBy(RemoveBy(s, key, k), key, k2) == if k2 == k then None else FindBy(s, key, k2)
  {
    if |s| > 0 {
      var init := s[..|s| - 1];
      FindRemove(init, key, k, k2);
      if key(s[|s| - 1]) != k {
        FindAppend(RemoveBy(init, key, k), key, s[|s| - 1], k2);
      } else {
        assert RemoveBy(s, key, k) == RemoveBy(init, key, k);
      }
    }
  }

  /** Dropping the first row keeps a key unique. */
  lemma UniqueTail<T, K>(s: seq<T>, key: T -> K)
    requires UniqueBy(s, key) && |s| > 0
    ensures UniqueBy(s[1..], key)
  {
    forall a, b | 0 <= a < b < |s[1..]| ensures key(s[1..][a]) != key(s[1..][b]) {
      assert s[1..][a] == s[a + 1] && s[1..][b] == s[b + 1];
    }
  }

  /** Dropping the last row keeps a key unique. */
  lemma UniqueInit<T, K>(s: seq<T>, key: T -> K)
    requires UniqueBy(s, key) && |s| > 0
    ensures UniqueBy(s[..|s| - 1], key)
  {
    var init := s[..|s| - 1];
    forall a, b | 0 <= a < b < |init| ensures key(init[a]) != key(init[b]) {
      assert init[a] == s[a] && init[b] == s[b];
    }
  }

  lemma AppendKeepsUnique<T, K>(s: seq<T>, key: T -> K, x: T)
    requires UniqueBy(s, key) && FindBy(s, key, key(x)).None?
    ensures UniqueBy(s + [x], key)
  {
    forall i, j | 0 <= i < j < |s + [x]| ensures key((s + [x])[i]) != key((s + [x])[j]) {
      if j == |s| {
        assert (s + [x])[i] == s[i];
      }
    }
  }

  lemma UpdateKeepsUnique<T(!new), K>(s: seq<T>, key: T -> K, k: K, f: T -> T)
    requires UniqueBy(s, key) && KeepsKey(key, f)
    ensures UniqueBy(UpdateBy(s, key, k, f), key)
  {
    var r := UpdateBy(s, key, k, f);
    forall i, j | 0 <= i < j < |r| ensures key(r[i]) != key(r[j]) {
      assert key(r[i]) == key(s[i]) && key(r[j]) == key(s[j]);
    }
  }

  /** Appending a row whose key no row of `s` has, to a selection from `s`,
      keeps the key unique. */
  lemma AppendFreshKeepsUnique<T, K>(s: seq<T>, t: seq<T>, key: T -> K, x: T)
    requires UniqueBy(s + [x], key) && UniqueBy(t, key)
    requires forall y | y in t :: y in s
    ensures UniqueBy(t + [x], key)
  {
    forall j | 0 <= j < |t| ensures key(t[j]) != key(x) {
      assert t[j] in t;
      var m :| 0 <= m < |s| && s[m] == t[j];
      assert (s + [x])[m] == t[j] && (s + [x])[|s|] == x;
    }
    AppendKeepsUnique(t, key, x);
  }

  lemma {:induction false} FilterKeepsUnique<T(!new), K>(s: seq<T>, keep: T -> bool, key: T -> K)
    requires UniqueBy(s, key)
    ensures UniqueBy(Filter(s, keep), key)
  {
    if |s| > 0 {
      var init := s[..|s| - 1];
      UniqueInit(s, key);
      FilterKeepsUnique(init, keep, key);
      if keep(s[|s| - 1]) {
        assert init + [s[|s| - 1]] == s;
        AppendFreshKeepsUnique(init, Filter(init, keep), key, s[|s| - 1]);
      } else {
        assert Filter(s, keep) == Filter(init, keep);
      }
    }
  }

  lemma {:induction false} RemoveKeepsUnique<T(!new), K>(s: seq<T>, key: T -> K, k: K)
    requires UniqueBy(s, key)
    ensures UniqueBy(RemoveBy(s, key, k), key)
  {
    if |s| > 0 {
      var init := s[..|s| - 1];
      UniqueInit(s, key);
      RemoveKeepsUnique(init, key, k);
      if key(s[|s| - 1]) != k {
        assert init + [s[|s| - 1]] == s;
        AppendFreshKeepsUnique(init, RemoveBy(init, key, k), key, s[|s| - 1]);
      } else {
        assert RemoveBy(s, key, k) == RemoveBy(init, key, k);
      }
    }
  }

  /** A selection keeps every matching row as often as the table holds it,
      and no other row. */
  lemma {:induction false} FilterCounts<T(!new)>(s: seq<T>, keep: T -> bool, x: T)
    ensures multiset(Filter(s, keep))[x] == if keep(x) then multiset(s)[x] else 0
  {
    if |s| > 0 {
      var init := s[..|s| - 1];
      assert s == init + [s[|s| - 1]];
      FilterCounts(init, keep, x);
    }
  }

  /** A delete keeps every row with another key as often as the table holds
      it, and no row with the key. */
  lemma {:induction false} RemoveCounts<T(!new), K>(s: seq<T>, key: T -> K, k: K, x: T)
    ensures multiset(RemoveBy(s, key, k))[x] == if key(x) != k then multiset(s)[x] else 0
  {
    if |s| > 0 {
      var init := s[..|s| - 1];
      assert s == init + [s[|s| - 1]];
      RemoveCounts(init, key, k, x);
    }
  }

  /** Scanning one more row appends it to the selection when it matches. */
  lemma FilterAppend<T(!new)>(s: seq<T>, keep: T -> bool, x: T)
    ensures Filter(s + [x], keep) == Filter(s, keep) + (if keep(x) then [x] else [])
  {
    assert (s + [x])[..|s|] == s;
  }
}
