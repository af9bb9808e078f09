/** The ordering step of `/quakes`: a reversed sort by time, where a null
    time counts as "". The keys are the rendered times compared as strings,
    so the result is newest first when the rendering preserves the order of
    times. Python's sort is stable also when reversed, so records with equal
    keys keep their feed order. */
module RecencySort {
  import opened Wrappers
  import opened TextOrder
  import opened Api

  /** The sort key: the rendered time, or "" when the time is null. */
  function SortKey(q: Quake): (k: string)
    ensures q.time.None? ==> k == ""
    ensures q.time.Some? ==> k == q.time.value
  {
    q.time.GetOr("")
  }

  /** Keys never increase from left to right. */
  predicate Descending(s: seq<Quake>)
  {
    forall i, j :: 0 <= i < j < |s| ==> !Below(SortKey(s[i]), SortKey(s[j]))
  }

  /** The records of `s` whose key is `k`, in their order in `s`. */
  function WithKey(s: seq<Quake>, k: string): seq<Quake>
  {
    if s == [] then []
    else (if SortKey(s[0]) == k then [s[0]] else []) + WithKey(s[1..], k)
  }

  /** Puts `x` into `t` in front of the first record whose key is not
      greater than its own, so that `x` precedes the records of equal key. */
  function Insert(x: Quake, t: seq<Quake>): (r: seq<Quake>)
    ensures multiset(r) == multiset(t) + multiset{x}
  {
    if t == [] || !Below(SortKey(x), SortKey(t[0])) then [x] + t
    else
      assert t == [t[0]] + t[1..];
      [t[0]] + Insert(x, t[1..])
  }

  /** The stable descending sort of `s` by `SortKey`. */
  function SortByTimeDesc(s: seq<Quake>): (r: seq<Quake>)
    ensures multiset(r) == multiset(s)
    ensures |r| == |s|
  {
    if s == [] then []
    else
      assert s == [s[0]] + s[1..];
      var r := Insert(s[0], SortByTimeDesc(s[1..]));
      assert |r| == |multiset(r)|;
      r
  }

  lemma {:induction false} InsertDescending(x: Quake, t: seq<Quake>)
    requires Descending(t)
    ensures Descending(Insert(x, t))
  {
    if t == [] || !Below(SortKey(x), SortKey(t[0])) {
      var r := [x] + t;
      forall i, j | 0 <= i < j < |r|
        ensures !Below(SortKey(r[i]), SortKey(r[j]))
      {
        if i == 0 && j > 1 {
          AtMostTransitive(SortKey(t[j - 1]), SortKey(t[0]), SortKey(x));
        }
      }
    } else {
      var rest := Insert(x, t[1..]);
      InsertDescending(x, t[1..]);
      var r := [t[0]] + rest;
      forall j | 0 <= j < |rest|
        ensures !Below(SortKey(t[0]), SortKey(rest[j]))
      {
        assert rest[j] in multiset(rest);
        if rest[j] == x {
          BelowAsymmetric(SortKey(x), SortKey(t[0]));
        } else {
          assert rest[j] in multiset(t[1..]);
          var k :| 0 <= k < |t[1..]| && t[1..][k] == rest[j];
          assert t[k + 1] == rest[j];
        }
      }
      forall i, j | 0 <= i < j < |r|
        ensures !Below(SortKey(r[i]), SortKey(r[j]))
      {
        if i == 0 {
          assert r[j] == rest[j - 1];
        } else {
          assert r[i] == rest[i - 1] && r[j] == rest[j - 1];
        }
      }
    }
  }

  /** Inserting `x` adds it in front of the records that share its key and
      changes no other key's group. */
  lemma {:induction false} InsertWithKey(x: Quake, t: seq<Quake>, k: string)
    ensures WithKey(Insert(x, t), k) == (if SortKey(x) == k then [x] else []) + WithKey(t, k)
  {
    if t == [] || !Below(SortKey(x), SortKey(t[0])) {
      assert ([x] + t)[1..] == t;
    } else {
      BelowIrreflexive(SortKey(x));
      InsertWithKey(x, t[1..], k);
      assert ([t[0]] + Insert(x, t[1..]))[1..] == Insert(x, t[1..]);
    }
  }

  /** The sort's output is newest first. */
  lemma {:induction false} SortDescending(s: seq<Quake>)
    ensures Descending(SortByTimeDesc(s))
  {
    if s != [] {
      SortDescending(s[1..]);
      InsertDescending(s[0], SortByTimeDesc(s[1..]));
    }
  }

  /** The sort is stable: the records of any one key keep their input order. */
  lemma {:induction false} SortStable(s: seq<Quake>, k: string)
    ensures WithKey(SortByTimeDesc(s), k) == WithKey(s, k)
  {
    if s != [] {
      SortStable(s[1..], k);
      InsertWithKey(s[0], SortByTimeDesc(s[1..]), k);
    }
  }

  /** A record of key `k` exists wherever the group of `k` is not empty. */
  lemma {:induction false} WithKeyWitness(s: seq<Quake>, k: string) returns (i: nat)
    requires WithKey(s, k) != []
    ensures i < |s| && SortKey(s[i]) == k
  {
    if SortKey(s[0]) == k {
      i := 0;
    } else {
      var j := WithKeyWitness(s[1..], k);
      i := j + 1;
    }
  }

  /** Two newest-first sequences with the same group for every key are equal. */
  lemma {:induction false} SameGroupsEqual(r1: seq<Quake>, r2: seq<Quake>)
    requires Descending(r1) && Descending(r2)
    requires forall k :: WithKey(r1, k) == WithKey(r2, k)
    ensures r1 == r2
  {
    if r1 == [] || r2 == [] {
      if r1 != [] {
        assert WithKey(r1, SortKey(r1[0])) != WithKey(r2, SortKey(r1[0]));
      } else if r2 != [] {
        assert WithKey(r1, SortKey(r2[0])) != WithKey(r2, SortKey(r2[0]));
      }
    } else {
      var k1, k2 := SortKey(r1[0]), SortKey(r2[0]);
      assert WithKey(r2, k2) != [];
      var i1 := WithKeyWitness(r1, k2);
      assert WithKey(r1, k1) != [];
      var i2 := WithKeyWitness(r2, k1);
      if i1 == 0 {
        BelowIrreflexive(k1);
      }
      if i2 == 0 {
        BelowIrreflexive(k2);
      }
      AtMostAntisymmetric(k1, k2);
      assert r1[0] == WithKey(r1, k1)[0] == WithKey(r2, k1)[0] == r2[0];
      forall k
        ensures WithKey(r1[1..], k) == WithKey(r2[1..], k)
      {
        var head := if k1 == k then [r1[0]] else [];
        assert WithKey(r1, k) == head + WithKey(r1[1..], k);
        assert WithKey(r2, k) == head + WithKey(r2[1..], k);
        assert (head + WithKey(r1[1..], k))[|head|..] == WithKey(r1[1..], k);
        assert (head + WithKey(r2[1..], k))[|head|..] == WithKey(r2[1..], k);
      }
      SameGroupsEqual(r1[1..], r2[1..]);
      assert r1 == [r1[0]] + r1[1..] && r2 == [r2[0]] + r2[1..];
    }
  }

  /** An independent description of the sort: the only newest-first
      arrangement of `s` that keeps every key's records in feed order. */
  lemma SortCharacterized(s: seq<Quake>, r: seq<Quake>)
    requires Descending(r)
    requires forall k :: WithKey(r, k) == WithKey(s, k)
    ensures r == SortByTimeDesc(s)
  {
    SortDescending(s);
    forall k
      ensures WithKey(SortByTimeDesc(s), k) == WithKey(r, k)
    {
      SortStable(s, k);
    }
    SameGroupsEqual(r, SortByTimeDesc(s));
  }

  /** The first `n` records; Python slicing clamps `n` to the length. */
  function Prefix(s: seq<Quake>, n: int): (r: seq<Quake>)
    requires n >= 0
    ensures |r| == if n < |s| then n else |s|
    ensures r <= s
  {
    if n < |s| then s[..n] else s
  }

  /** Cutting a sequence short leaves each key's group a prefix of what it was. */
  lemma {:induction false} PrefixWithKey(s: seq<Quake>, n: nat, k: string)
    requires n <= |s|
    ensures WithKey(s[..n], k) <= WithKey(s, k)
  {
    if n > 0 {
      PrefixWithKey(s[1..], n - 1, k);
      assert s[..n][1..] == s[1..][..n - 1];
    }
  }

  /** Sorting then truncating invents and duplicates nothing: the result
      is, with multiplicity, drawn from the input. */
  lemma SortedPrefixFromInput(s: seq<Quake>, n: int)
    requires n >= 0
    ensures multiset(Prefix(SortByTimeDesc(s), n)) <= multiset(s)
  {
    var sorted := SortByTimeDesc(s);
    var shown := Prefix(sorted, n);
    assert sorted == shown + sorted[|shown|..];
    assert multiset(sorted) == multiset(shown) + multiset(sorted[|shown|..]);
  }

  /** After sorting and truncating, each key's records are the first ones
      of that key in the input, in input order. */
  lemma SortedPrefixKeepsTies(s: seq<Quake>, n: int, k: string)
    requires n >= 0
    ensures WithKey(Prefix(SortByTimeDesc(s), n), k) <= WithKey(s, k)
  {
    var sorted := SortByTimeDesc(s);
    var shown := Prefix(sorted, n);
    SortStable(s, k);
    PrefixWithKey(sorted, |shown|, k);
    assert sorted[..|shown|] == shown;
  }

  /** A prefix of the sorted records is newest first and, when no record
      has the empty string as its time, puts every untimed record last. */
  lemma SortedPrefixNewestFirst(s: seq<Quake>, n: int)
    requires n >= 0
    ensures Descending(Prefix(SortByTimeDesc(s), n))
    ensures (forall x :: x in s ==> x.time != Some("")) ==>
      var r := Prefix(SortByTimeDesc(s), n);
      forall i, j :: 0 <= i < j < |r| && r[i].time.None? ==> r[j].time.None?
  {
    var sorted := SortByTimeDesc(s);
    var r := Prefix(sorted, n);
    SortDescending(s);
    assert r == sorted[..|r|];
    if forall x :: x in s ==> x.time != Some("") {
      forall i | 0 <= i < |r|
        ensures r[i].time != Some("")
      {
        assert r[i] == sorted[i];
        assert sorted[i] in multiset(sorted);
      }
      UntimedLast(r);
    }
  }

  /** Under a formatter that never returns "", a null time is the only way
      to have key "", so in a newest-first sequence every record without a
      time comes after every record that has one. */
  lemma UntimedLast(r: seq<Quake>)
    requires Descending(r)
    requires forall i :: 0 <= i < |r| ==> r[i].time != Some("")
    ensures forall i, j :: 0 <= i < j < |r| && r[i].time.None? ==> r[j].time.None?
  {
    forall i, j | 0 <= i < j < |r| && r[i].time.None?
      ensures r[j].time.None?
    {
      EmptyIsLeast(SortKey(r[j]));
    }
  }
}
