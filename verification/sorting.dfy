/** Python's `list.sort(key=..., reverse=True)` on string keys, as the report
    builders use it to put the newest date first. Strings compare by code
    point, lexicographically, with a proper prefix ordered first. */
module Sorting {

  /** `a <= b` for Python strings. */
  predicate StrLe(a: string, b: string)
    decreases |a|
  {
    |a| == 0 || (|b| > 0 && (a[0] < b[0] || (a[0] == b[0] && StrLe(a[1..], b[1..]))))
  }

  /** `a < b` for Python strings. */
  predicate StrLt(a: string, b: string) {
    !StrLe(b, a)
  }

  lemma {:induction false} StrLeTotal(a: string, b: string)
    ensures StrLe(a, b) || StrLe(b, a)
    decreases |a|
  {
    if |a| > 0 && |b| > 0 && a[0] == b[0] {
      StrLeTotal(a[1..], b[1..]);
    }
  }

  lemma {:induction false} StrLeTransitive(a: string, b: string, c: string)
    requires StrLe(a, b) && StrLe(b, c)
    ensures StrLe(a, c)
    decreases |a|
  {
    if |a| > 0 && a[0] == b[0] && b[0] == c[0] {
      StrLeTransitive(a[1..], b[1..], c[1..]);
    }
  }

  lemma {:induction false} StrLeAntisymmetric(a: string, b: string)
    requires StrLe(a, b) && StrLe(b, a)
    ensures a == b
    decreases |a|
  {
    if |a| > 0 {
      StrLeAntisymmetric(a[1..], b[1..]);
      assert a == [a[0]] + a[1..] && b == [b[0]] + b[1..];
    }
  }

  /** Keys never increase from left to right: newest first. */
  predicate Descending<T>(s: seq<T>, key: T -> string) {
    forall i, j | 0 <= i < j < |s| :: StrLe(key(s[j]), key(s[i]))
  }

  lemma DescendingTail<T>(s: seq<T>, key: T -> string)
    requires Descending(s, key) && |s| > 0
    ensures Descending(s[1..], key)
  {
    forall i, j | 0 <= i < j < |s| - 1
      ensures StrLe(key(s[1..][j]), key(s[1..][i]))
    {
      assert s[1..][j] == s[j + 1] && s[1..][i] == s[i + 1];
    }
  }

  lemma DescendingInit<T>(s: seq<T>, key: T -> string)
    requires Descending(s, key) && |s| > 0
    ensures Descending(s[..|s| - 1], key)
  {
    var init := s[..|s| - 1];
    forall i, j | 0 <= i < j < |init|
      ensures StrLe(key(init[j]), key(init[i]))
    {
      assert init[j] == s[j] && init[i] == s[i];
    }
  }

  /** Places `x` after every element whose key is at least its own, so that
      among equal keys the earlier-inserted element stays first. */
  function Insert<T>(x: T, s: seq<T>, key: T -> string): (r: seq<T>)
    requires Descending(s, key)
    ensures multiset(r) == multiset(s) + multiset{x}
    ensures |r| == |s| + 1
    ensures Descending(r, key)
  {
    if |s| == 0 then [x]
    else if StrLt(key(s[0]), key(x)) then
      InsertFront(x, s, key);
      [x] + s
    else
      StrLeTotal(key(s[0]), key(x));
      var rest := Insert(x, s[1..], key);
      assert s == [s[0]] + s[1..];
      assert forall k | 0 <= k < |rest| :: StrLe(key(rest[k]), key(s[0])) by {
        forall k | 0 <= k < |rest|
          ensures StrLe(key(rest[k]), key(s[0]))
        {
          assert rest[k] in multiset(rest);
          if rest[k] != x {
            assert rest[k] in multiset(s[1..]);
            var m :| 0 <= m < |s[1..]| && s[1..][m] == rest[k];
            assert s[m + 1] == rest[k];
          }
        }
      }
      [s[0]] + rest
  }

  /** Putting `x` in front of a descending list whose head is smaller keeps it
      descending. */
  lemma InsertFront<T>(x: T, s: seq<T>, key: T -> string)
    requires Descending(s, key) && |s| > 0 && StrLt(key(s[0]), key(x))
    ensures Descending([x] + s, key)
  {
    StrLeTotal(key(s[0]), key(x));
    forall j | 0 < j < |s|
      ensures StrLe(key(s[j]), key(x))
    {
      StrLeTransitive(key(s[j]), key(s[0]), key(x));
    }
  }

  /** `sorted(s, key=key, reverse=True)`: insertion of each element in turn,
      first element first. */
  function NewestFirst<T>(s: seq<T>, key: T -> string): (r: seq<T>)
    ensures multiset(r) == multiset(s)
    ensures |r| == |s|
    ensures Descending(r, key)
    decreases |s|
  {
    if |s| == 0 then []
    else
      assert s == s[..|s| - 1] + [s[|s| - 1]];
      Insert(s[|s| - 1], NewestFirst(s[..|s| - 1], key), key)
  }

  /** A list that is already newest first comes back unchanged. */
  lemma {:induction false} NewestFirstOfDescending<T>(s: seq<T>, key: T -> string)
    requires Descending(s, key)
    ensures NewestFirst(s, key) == s
    decreases |s|
  {
    if |s| > 0 {
      var init, last := s[..|s| - 1], s[|s| - 1];
      DescendingInit(s, key);
      NewestFirstOfDescending(init, key);
      assert NewestFirst(s, key) == Insert(last, init, key);
      forall i | 0 <= i < |init|
        ensures StrLe(key(last), key(init[i]))
      {
        assert init[i] == s[i];
      }
      InsertLast(last, init, key);
      InitLast(s);
    }
  }

  /** An element no newer than every element already placed goes last. */
  lemma {:induction false} InsertLast<T>(x: T, s: seq<T>, key: T -> string)
    requires Descending(s, key)
    requires forall i | 0 <= i < |s| :: StrLe(key(x), key(s[i]))
    ensures Insert(x, s, key) == s + [x]
    decreases |s|
  {
    if |s| > 0 {
      assert !StrLt(key(s[0]), key(x));
      DescendingTail(s, key);
      forall i | 0 <= i < |s| - 1
        ensures StrLe(key(x), key(s[1..][i]))
      {
        assert s[1..][i] == s[i + 1];
      }
      InsertLast(x, s[1..], key);
      assert Insert(x, s, key) == [s[0]] + Insert(x, s[1..], key);
      assert [s[0]] + (s[1..] + [x]) == s + [x];
    }
  }

  // ---------------------------------------------------------------- stability

  /** The elements whose key is `k`, in order. */
  function WithKey<T>(s: seq<T>, key: T -> string, k: string): (r: seq<T>)
    ensures |r| <= |s|
  {
    if |s| == 0 then []
    else (if key(s[0]) == k then [s[0]] else []) + WithKey(s[1..], key, k)
  }

  lemma {:induction false} WithKeyConcat<T>(a: seq<T>, b: seq<T>, key: T -> string, k: string)
    ensures WithKey(a + b, key, k) == WithKey(a, key, k) + WithKey(b, key, k)
    decreases |a|
  {
    if |a| > 0 {
      var head := if key(a[0]) == k then [a[0]] else [];
      assert (a + b)[0] == a[0] && (a + b)[1..] == a[1..] + b;
      WithKeyConcat(a[1..], b, key, k);
      calc {
        WithKey(a + b, key, k);
        head + WithKey(a[1..] + b, key, k);
        head + (WithKey(a[1..], key, k) + WithKey(b, key, k));
        (head + WithKey(a[1..], key, k)) + WithKey(b, key, k);
      }
    } else {
      assert a + b == b;
    }
  }

  /** No element of a list whose keys are all below `k` has key `k`. */
  lemma {:induction false} WithKeyAbsent<T>(s: seq<T>, key: T -> string, k: string)
    requires forall i | 0 <= i < |s| :: StrLt(key(s[i]), k)
    ensures WithKey(s, key, k) == []
    decreases |s|
  {
    if |s| > 0 {
      StrLeTotal(key(s[0]), k);
      WithKeyAbsent(s[1..], key, k);
    }
  }

  /** Inserting `x` appends it to the elements sharing its key and leaves
      every other key's elements alone. */
  lemma {:induction false} InsertWithKey<T>(x: T, s: seq<T>, key: T -> string, k: string)
    requires Descending(s, key)
    ensures WithKey(Insert(x, s, key), key, k)
         == WithKey(s, key, k) + (if key(x) == k then [x] else [])
    decreases |s|
  {
    if |s| == 0 {
      WithKeyCons(x, [], key, k);
      assert [x] + [] == [x];
    } else if StrLt(key(s[0]), key(x)) {
      assert Insert(x, s, key) == [x] + s;
      WithKeyFront(x, s, key, k);
    } else {
      var rest := Insert(x, s[1..], key);
      DescendingTail(s, key);
      InsertWithKey(x, s[1..], key, k);
      assert Insert(x, s, key) == [s[0]] + rest;
      WithKeyStep(s[0], rest, s[1..], if key(x) == k then [x] else [], key, k);
      HeadTail(s);
    }
  }

  lemma InitLast<T>(s: seq<T>)
    requires |s| > 0
    ensures s[..|s| - 1] + [s[|s| - 1]] == s
  {
  }

  lemma HeadTail<T>(s: seq<T>)
    requires |s| > 0
    ensures [s[0]] + s[1..] == s
  {
  }

  /** Putting the same element in front of two lists keeps their
      `WithKey` relation. */
  lemma WithKeyStep<T>(y: T, r: seq<T>, t: seq<T>, extra: seq<T>, key: T -> string, k: string)
    requires WithKey(r, key, k) == WithKey(t, key, k) + extra
    ensures WithKey([y] + r, key, k) == WithKey([y] + t, key, k) + extra
  {
    WithKeyCons(y, r, key, k);
    WithKeyCons(y, t, key, k);
    var head := if key(y) == k then [y] else [];
    assert head + (WithKey(t, key, k) + extra) == (head + WithKey(t, key, k)) + extra;
  }

  /** `x` newer than the whole descending list: its key is absent there. */
  lemma WithKeyFront<T>(x: T, s: seq<T>, key: T -> string, k: string)
    requires Descending(s, key) && |s| > 0 && StrLt(key(s[0]), key(x))
    ensures WithKey([x] + s, key, k) == WithKey(s, key, k) + (if key(x) == k then [x] else [])
  {
    WithKeyCons(x, s, key, k);
    if key(x) == k {
      forall i | 0 <= i < |s|
        ensures StrLt(key(s[i]), k)
      {
        if i > 0 && !StrLt(key(s[i]), k) {
          StrLeTransitive(key(x), key(s[i]), key(s[0]));
        }
      }
      WithKeyAbsent(s, key, k);
    }
  }

  lemma WithKeyCons<T>(y: T, t: seq<T>, key: T -> string, k: string)
    ensures WithKey([y] + t, key, k) == (if key(y) == k then [y] else []) + WithKey(t, key, k)
  {
    assert ([y] + t)[0] == y && ([y] + t)[1..] == t;
  }

  /** Python's sort is stable, also with `reverse=True`: elements with equal
      keys keep their original relative order. */
  lemma {:induction false} NewestFirstStable<T>(s: seq<T>, key: T -> string, k: string)
    ensures WithKey(NewestFirst(s, key), key, k) == WithKey(s, key, k)
    decreases |s|
  {
    if |s| > 0 {
      var init, last := s[..|s| - 1], s[|s| - 1];
      assert s == init + [last] by {
        assert forall i | 0 <= i < |init| :: s[i] == init[i];
      }
      assert NewestFirst(s, key) == Insert(last, NewestFirst(init, key), key);
      NewestFirstStable(init, key, k);
      InsertWithKey(last, NewestFirst(init, key), key, k);
      WithKeyConcat(init, [last], key, k);
      assert WithKey([last], key, k) == (if key(last) == k then [last] else []) + WithKey([last][1..], key, k);
    }
  }
}
