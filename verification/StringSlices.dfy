/**
 The two string-slice helpers the finalizer protocol relies on
 (pkg/util/slice/slice.go).
 */
module StringSlices {

  /** `items` with every occurrence of `s` taken out, the rest in order. */
  function Without(items: seq<string>, s: string): (r: seq<string>)
    ensures s !in r
  {
    if items == [] then []
    else (if items[0] == s then [] else [items[0]]) + Without(items[1..], s)
  }

  method RemoveString(items: seq<string>, s: string) returns (kept: seq<string>)
    ensures kept == Without(items, s)
  {
    kept := [];
    for i := 0 to |items|
      invariant kept == Without(items[..i], s)
    {
      WithoutStep(items, s, i);
      if items[i] != s {
        kept := kept + [items[i]];
      }
    }
    assert items[..|items|] == items;
  }

  method ContainsString(items: seq<string>, s: string) returns (found: bool)
    ensures found <==> s in items
  {
    for i := 0 to |items|
      invariant s !in items[..i]
    {
      if items[i] == s {
        return true;
      }
    }
    return false;
  }

  lemma Regroup<T>(x: seq<T>, y: seq<T>, z: seq<T>)
    ensures x + (y + z) == (x + y) + z
  {}

  /** Removal works piecewise, so the relative order of what is kept is the original order. */
  lemma {:induction false} WithoutDistributes(a: seq<string>, b: seq<string>, s: string)
    ensures Without(a + b, s) == Without(a, s) + Without(b, s)
  {
    if a == [] {
      assert a + b == b;
    } else {
      WithoutDistributes(a[1..], b, s);
      assert (a + b)[1..] == a[1..] + b;
      Regroup(if a[0] == s then [] else [a[0]], Without(a[1..], s), Without(b, s));
    }
  }

  lemma WithoutStep(items: seq<string>, s: string, i: nat)
    requires i < |items|
    ensures Without(items[..i + 1], s) == Without(items[..i], s) + if items[i] == s then [] else [items[i]]
  {
    assert items[..i + 1] == items[..i] + [items[i]];
    assert [items[i]][1..] == [];
    WithoutDistributes(items[..i], [items[i]], s);
  }

  /** Nothing but `s` is lost: every other string keeps its multiplicity. */
  lemma {:induction false} WithoutLosesOnlyThat(items: seq<string>, s: string)
    ensures multiset(Without(items, s)) == multiset(items)[s := 0]
  {
    if items != [] {
      WithoutLosesOnlyThat(items[1..], s);
      assert items == [items[0]] + items[1..];
    }
  }

  lemma {:induction false} WithoutAbsent(items: seq<string>, s: string)
    requires s !in items
    ensures Without(items, s) == items
  {
    if items != [] {
      WithoutAbsent(items[1..], s);
    }
  }

  /** Appending a string that was not there and removing it again is the identity. */
  lemma WithoutUndoesAppend(items: seq<string>, s: string)
    requires s !in items
    ensures Without(items + [s], s) == items
  {
    WithoutDistributes(items, [s], s);
    WithoutAbsent(items, s);
  }
}
