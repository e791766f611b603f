/**
 * The multi-select checkbox handler that the website and marketing forms
 * repeat for each of their option lists (features, social media platforms,
 * marketing materials, KPIs). The list of selected ids is a plain array:
 * checking a box appends its id, unchecking filters every occurrence out, and
 * a box shows as checked when its id occurs in the list.
 */
module Toggle {

  /** The checked state drawn for box `id`: `value.includes(id)`. */
  predicate IsChecked(xs: seq<string>, id: string)
  {
    id in xs
  }

  /** Checking box `id`: `[...value, id]`; nothing is removed or reordered. */
  function Check(xs: seq<string>, id: string): (r: seq<string>)
    ensures |r| == |xs| + 1
    ensures r[..|xs|] == xs && r[|xs|] == id
  {
    xs + [id]
  }

  /** Unchecking box `id`: `value.filter(v => v !== id)`. */
  function Uncheck(xs: seq<string>, id: string): (r: seq<string>)
    ensures |r| <= |xs|
    ensures forall v :: v in r <==> v in xs && v != id
  {
    if xs == [] then []
    else (if xs[0] == id then [] else [xs[0]]) + Uncheck(xs[1..], id)
  }

  /** The `onCheckedChange` handler of box `id`. */
  function OnCheckedChange(xs: seq<string>, id: string, checked: bool): (r: seq<string>)
    ensures IsChecked(r, id) == checked
    ensures forall v :: v != id ==> (IsChecked(r, v) <==> IsChecked(xs, v))
  {
    if checked then Check(xs, id) else Uncheck(xs, id)
  }

  /** Unchecking removes every occurrence of `id` and keeps every other occurrence. */
  lemma {:induction false} UncheckCount(xs: seq<string>, id: string, v: string)
    ensures multiset(Uncheck(xs, id))[v] == if v == id then 0 else multiset(xs)[v]
  {
    if xs != [] {
      UncheckCount(xs[1..], id, v);
      assert xs == [xs[0]] + xs[1..];
      assert multiset(xs) == multiset([xs[0]]) + multiset(xs[1..]);
      var head := if xs[0] == id then [] else [xs[0]];
      assert Uncheck(xs, id) == head + Uncheck(xs[1..], id);
      assert multiset(Uncheck(xs, id)) == multiset(head) + multiset(Uncheck(xs[1..], id));
    }
  }

  /** Unchecking distributes over concatenation, so the survivors keep their order. */
  lemma {:induction false} UncheckConcat(a: seq<string>, b: seq<string>, id: string)
    ensures Uncheck(a + b, id) == Uncheck(a, id) + Uncheck(b, id)
  {
    if a != [] {
      assert (a + b)[0] == a[0];
      assert (a + b)[1..] == a[1..] + b;
      UncheckConcat(a[1..], b, id);
    } else {
      assert a + b == b;
    }
  }

  /** Unchecking a box that is not checked leaves the list as it was. */
  lemma {:induction false} UncheckAbsent(xs: seq<string>, id: string)
    requires !IsChecked(xs, id)
    ensures Uncheck(xs, id) == xs
  {
    if xs != [] {
      assert xs[0] != id;
      UncheckAbsent(xs[1..], id);
      assert xs == [xs[0]] + xs[1..];
    }
  }

  /** Unchecking twice is the same as unchecking once. */
  lemma UncheckIdempotent(xs: seq<string>, id: string)
    ensures Uncheck(Uncheck(xs, id), id) == Uncheck(xs, id)
  {
    UncheckAbsent(Uncheck(xs, id), id);
  }

  /** Checking then unchecking a box removes it altogether, whatever was there before. */
  lemma UncheckAfterCheck(xs: seq<string>, id: string)
    ensures Uncheck(Check(xs, id), id) == Uncheck(xs, id)
    ensures !IsChecked(xs, id) ==> Uncheck(Check(xs, id), id) == xs
  {
    UncheckConcat(xs, [id], id);
    assert Uncheck([id], id) == [];
    if !IsChecked(xs, id) {
      UncheckAbsent(xs, id);
    }
  }

  /**
   * Checking the same box twice appends its id twice: the list grows again,
   * though every box shows the same checked state as after one check.
   */
  lemma CheckTwice(xs: seq<string>, id: string)
    ensures |Check(Check(xs, id), id)| == |Check(xs, id)| + 1
    ensures forall v :: IsChecked(Check(Check(xs, id), id), v) <==> IsChecked(Check(xs, id), v)
  {
  }
}
