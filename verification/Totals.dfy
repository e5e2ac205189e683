/** Sums of a natural number for each key of a finite set. */
module Totals {
  ghost function Sum<K>(keys: set<K>, f: K -> nat): nat {
    if keys == {} then 0 else var key :| key in keys; f(key) + Sum(keys - {key}, f)
  }

  lemma {:induction false} SumTake<K>(keys: set<K>, f: K -> nat, key: K)
    requires key in keys
    ensures Sum(keys, f) == f(key) + Sum(keys - {key}, f)
    decreases |keys|
  {
    var first :| first in keys && Sum(keys, f) == f(first) + Sum(keys - {first}, f);
    if first != key {
      SumTake(keys - {first}, f, key);
      SumTake(keys - {key}, f, first);
      assert keys - {first} - {key} == keys - {key} - {first};
    }
  }

  lemma {:induction false} SumSplits<K>(keys: set<K>, f: K -> nat, g: K -> nat, h: K -> nat)
    requires forall key :: key in keys ==> f(key) == g(key) + h(key)
    ensures Sum(keys, f) == Sum(keys, g) + Sum(keys, h)
    decreases |keys|
  {
    if keys != {} {
      var key :| key in keys;
      SumTake(keys, f, key);
      SumTake(keys, g, key);
      SumTake(keys, h, key);
      SumSplits(keys - {key}, f, g, h);
    }
  }

  /** Keys that count nothing may be left out. */
  lemma {:induction false} SumSkips<K>(keys: set<K>, some: set<K>, f: K -> nat, g: K -> nat)
    requires some <= keys
    requires forall key :: key in keys ==> f(key) == if key in some then g(key) else 0
    ensures Sum(keys, f) == Sum(some, g)
    decreases |keys|
  {
    if keys != {} {
      var key :| key in keys;
      SumTake(keys, f, key);
      if key in some {
        SumTake(some, g, key);
        SumSkips(keys - {key}, some - {key}, f, g);
      } else {
        SumSkips(keys - {key}, some, f, g);
      }
    }
  }

  lemma {:induction false} SumZero<K>(keys: set<K>, f: K -> nat)
    requires forall key :: key in keys ==> f(key) == 0
    ensures Sum(keys, f) == 0
    decreases |keys|
  {
    if keys != {} {
      var key :| key in keys;
      SumTake(keys, f, key);
      SumZero(keys - {key}, f);
    }
  }
}
