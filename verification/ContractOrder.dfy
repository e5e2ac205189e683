/** The order in which scheduled versions become active, and how a list in that order splits into due and remaining. */
module ContractOrder {
  import opened ContractSpec

  ghost predicate Ordered(s: seq<Version>) {
    forall i, j :: 0 <= i < j < |s| ==> Earlier(s[i], s[j])
  }

  ghost predicate Distinct(s: seq<Version>) {
    forall i, j :: 0 <= i < j < |s| ==> s[i].version != s[j].version
  }

  /** No entry has the version. */
  ghost predicate Lacks(s: seq<Version>, version: int) {
    forall i :: 0 <= i < |s| ==> s[i].version != version
  }

  lemma {:induction false} InsertKeeps(s: seq<Version>, v: Version)
    ensures multiset(InsertVersion(s, v)) == multiset(s) + multiset{v}
    ensures |InsertVersion(s, v)| == |s| + 1
    ensures forall x :: x in InsertVersion(s, v) <==> x in s || x == v
  {
    if s == [] || Earlier(s[|s| - 1], v) {
    } else {
      var init, last := s[..|s| - 1], s[|s| - 1];
      InsertKeeps(init, v);
      assert s == init + [last];
    }
  }

  lemma {:induction false} InsertOrders(s: seq<Version>, v: Version)
    requires Ordered(s) && Lacks(s, v.version)
    ensures Ordered(InsertVersion(s, v))
  {
    if s == [] || Earlier(s[|s| - 1], v) {
      var r := InsertVersion(s, v);
      forall i, j | 0 <= i < j < |r| ensures Earlier(r[i], r[j]) {
        if j == |s| && i < |s| - 1 { assert Earlier(s[i], s[|s| - 1]); }
      }
    } else {
      var init, last := s[..|s| - 1], s[|s| - 1];
      InsertOrders(init, v);
      InsertKeeps(init, v);
      var r := InsertVersion(init, v);
      assert Earlier(v, last);
      forall i | 0 <= i < |r| ensures Earlier(r[i], last) {
        assert r[i] in r;
        if r[i] != v {
          var n :| 0 <= n < |init| && init[n] == r[i];
          assert Earlier(s[n], s[|s| - 1]);
        }
      }
    }
  }

  lemma {:induction false} SortedKeeps(s: seq<Version>)
    ensures multiset(Sorted(s)) == multiset(s) && |Sorted(s)| == |s|
    ensures forall x :: x in Sorted(s) <==> x in s
  {
    if s != [] {
      var init, last := s[..|s| - 1], s[|s| - 1];
      SortedKeeps(init);
      InsertKeeps(Sorted(init), last);
      assert s == init + [last];
    }
  }

  lemma {:induction false} SortedOrders(s: seq<Version>)
    requires Distinct(s)
    ensures Ordered(Sorted(s))
  {
    if s != [] {
      var init, last := s[..|s| - 1], s[|s| - 1];
      SortedOrders(init);
      SortedKeeps(init);
      forall i | 0 <= i < |Sorted(init)| ensures Sorted(init)[i].version != last.version {
        assert Sorted(init)[i] in init;
      }
      InsertOrders(Sorted(init), last);
    }
  }

  /** Any arrangement in this order is the one `Sorted` gives, so it does not matter how the list is sorted. */
  lemma {:induction false} SortIsUnique(a: seq<Version>, b: seq<Version>)
    requires Ordered(a) && Ordered(b) && multiset(a) == multiset(b)
    ensures a == b
  {
    if a == [] {
      assert |multiset(b)| == 0;
    } else {
      SameFirst(a, b);
      assert a == [a[0]] + a[1..] && b == [b[0]] + b[1..];
      assert multiset(a[1..]) == multiset(a) - multiset{a[0]} && multiset(b[1..]) == multiset(b) - multiset{b[0]};
      SortIsUnique(a[1..], b[1..]);
    }
  }

  lemma SameFirst(a: seq<Version>, b: seq<Version>)
    requires Ordered(a) && Ordered(b) && multiset(a) == multiset(b) && a != []
    ensures b != [] && a[0] == b[0]
  {
    assert a[0] in multiset(b);
    assert b[0] in multiset(a);
    var i :| 0 <= i < |b| && b[i] == a[0];
    var j :| 0 <= j < |a| && a[j] == b[0];
  }

  lemma {:induction false} OrderedSorts(s: seq<Version>)
    requires Ordered(s)
    ensures Sorted(s) == s
  {
    if s != [] {
      OrderedSorts(s[..|s| - 1]);
      if |s| > 1 { assert Earlier(s[|s| - 2], s[|s| - 1]); }
      assert s == s[..|s| - 1] + [s[|s| - 1]];
    }
  }

  // ----- Due and remaining -----

  lemma {:induction false} SplitMembers(s: seq<Version>, now: int)
    ensures forall x :: x in Due(s, now) <==> x in s && x.activationAt <= now
    ensures forall x :: x in Remaining(s, now) <==> x in s && x.activationAt > now
    ensures |Due(s, now)| + |Remaining(s, now)| == |s|
  {
    if s != [] {
      var init, last := s[..|s| - 1], s[|s| - 1];
      SplitMembers(init, now);
      assert s == init + [last];
      assert Due(s, now) == Due(init, now) + (if last.activationAt <= now then [last] else []);
      assert Remaining(s, now) == Remaining(init, now) + (if last.activationAt > now then [last] else []);
      hide Due, Remaining;
    }
  }

  /** An ordered list is what is due followed by what remains. */
  lemma {:induction false} SplitsOrdered(s: seq<Version>, now: int)
    requires Ordered(s)
    ensures s == Due(s, now) + Remaining(s, now)
  {
    if s != [] {
      var init, last := s[..|s| - 1], s[|s| - 1];
      SplitsOrdered(init, now);
      assert s == init + [last];
      if last.activationAt <= now {
        SplitMembers(init, now);
      }
    }
  }

  lemma {:induction false} DueConcat(a: seq<Version>, b: seq<Version>, now: int)
    ensures Due(a + b, now) == Due(a, now) + Due(b, now)
    ensures Remaining(a + b, now) == Remaining(a, now) + Remaining(b, now)
  {
    if b == [] {
      assert a + b == a;
    } else {
      DueConcat(a, b[..|b| - 1], now);
      assert (a + b)[..|a + b| - 1] == a + b[..|b| - 1];
    }
  }

  lemma {:induction false} AllDue(s: seq<Version>, now: int)
    requires forall x :: x in s ==> x.activationAt <= now
    ensures Due(s, now) == s && Remaining(s, now) == []
  {
    if s != [] {
      assert s == s[..|s| - 1] + [s[|s| - 1]];
      AllDue(s[..|s| - 1], now);
    }
  }

  lemma {:induction false} NoneDue(s: seq<Version>, now: int)
    requires forall x :: x in s ==> x.activationAt > now
    ensures Due(s, now) == [] && Remaining(s, now) == s
  {
    if s != [] {
      assert s == s[..|s| - 1] + [s[|s| - 1]];
      NoneDue(s[..|s| - 1], now);
    }
  }

  /** What is due by a later time is what was due by an earlier one and then what is due of the rest. */
  lemma DueInSteps(s: seq<Version>, t1: int, t2: int)
    requires Ordered(s) && t1 <= t2
    ensures Due(s, t2) == Due(s, t1) + Due(Remaining(s, t1), t2)
    ensures Remaining(s, t2) == Remaining(Remaining(s, t1), t2)
  {
    SplitsOrdered(s, t1);
    SplitMembers(s, t1);
    DueConcat(Due(s, t1), Remaining(s, t1), t2);
    AllDue(Due(s, t1), t2);
  }

  lemma PartsOrdered(a: seq<Version>, b: seq<Version>)
    requires Ordered(a + b)
    ensures Ordered(a) && Ordered(b)
  {
    var s := a + b;
    forall i, j | 0 <= i < j < |a| ensures Earlier(a[i], a[j]) { assert Earlier(s[i], s[j]); }
    forall i, j | 0 <= i < j < |b| ensures Earlier(b[i], b[j]) { assert Earlier(s[|a| + i], s[|a| + j]); }
  }

  lemma RemainingOrdered(s: seq<Version>, now: int)
    requires Ordered(s)
    ensures Ordered(Remaining(s, now)) && Ordered(Due(s, now))
  {
    hide Due, Remaining, Ordered;
    SplitsOrdered(s, now);
    PartsOrdered(Due(s, now), Remaining(s, now));
  }
}
