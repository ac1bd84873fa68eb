/** Shared value types. */
module Prelude {

  datatype Option<+T> = None | Some(value: T)

  datatype Result<+T, +E> = Ok(value: T) | Err(error: E)

  /** The sum of `f` over a finite set of keys. */
  ghost function SumOver(keys: set<string>, f: map<string, real>): real
    requires keys <= f.Keys
  {
    if keys == {} then 0.0
    else
      var k :| k in keys;
      f[k] + SumOver(keys - {k}, f)
  }

  /** The sum does not depend on the order in which keys are picked. */
  lemma {:induction false} SumOverPick(keys: set<string>, f: map<string, real>, k: string)
    requires keys <= f.Keys && k in keys
    ensures SumOver(keys, f) == f[k] + SumOver(keys - {k}, f)
    decreases keys
  {
    var first :| first in keys && SumOver(keys, f) == f[first] + SumOver(keys - {first}, f);
    if first != k {
      SumOverPick(keys - {first}, f, k);
      SumOverPick(keys - {k}, f, first);
      assert keys - {first} - {k} == keys - {k} - {first};
    }
  }

  lemma {:induction false} SumOverAdd(keys: set<string>, f: map<string, real>, k: string)
    requires keys <= f.Keys && k in f && k !in keys
    ensures SumOver(keys + {k}, f) == SumOver(keys, f) + f[k]
  {
    SumOverPick(keys + {k}, f, k);
    assert keys + {k} - {k} == keys;
  }

  /** With non-negative terms, a sum over fewer keys is no larger. */
  lemma {:induction false} SumOverMonotone(some: set<string>, all: set<string>, f: map<string, real>)
    requires some <= all <= f.Keys
    requires forall k :: k in all ==> f[k] >= 0.0
    ensures 0.0 <= SumOver(some, f) <= SumOver(all, f)
    decreases all
  {
    if some == all {
      if all != {} {
        var k :| k in all;
        SumOverPick(all, f, k);
        SumOverMonotone(some - {k}, all - {k}, f);
      }
    } else {
      assert exists k :: k in all && k !in some;
      var k :| k in all && k !in some;
      SumOverPick(all, f, k);
      SumOverMonotone(some, all - {k}, f);
    }
  }
}
