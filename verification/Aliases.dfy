/** network.py, alias lists: what adding and removing the virtual IP does to one NIC's list. */
module Aliases {

  /** The list with every entry for the VIP left out. */
  function Without(xs: seq<string>, vip: string): seq<string> {
    if xs == [] then []
    else if xs[0] == vip then Without(xs[1..], vip)
    else [xs[0]] + Without(xs[1..], vip)
  }

  /** Append unless present. */
  function With(xs: seq<string>, vip: string): seq<string> {
    if vip in xs then xs else xs + [vip]
  }

  function Count(xs: seq<string>, vip: string): nat {
    multiset(xs)[vip]
  }

  lemma {:induction false} WithoutSpec(xs: seq<string>, vip: string)
    ensures vip !in Without(xs, vip)
    ensures vip !in xs ==> Without(xs, vip) == xs
    ensures |Without(xs, vip)| <= |xs|
    ensures forall x :: x in Without(xs, vip) <==> x in xs && x != vip
  {
    if xs != [] {
      WithoutSpec(xs[1..], vip);
      assert xs == [xs[0]] + xs[1..];
    }
  }

  lemma {:induction false} WithoutAppend(xs: seq<string>, ys: seq<string>, vip: string)
    ensures Without(xs + ys, vip) == Without(xs, vip) + Without(ys, vip)
  {
    if xs == [] {
      assert xs + ys == ys;
    } else {
      WithoutAppend(xs[1..], ys, vip);
      assert (xs + ys)[1..] == xs[1..] + ys;
    }
  }

  /** Neither edit changes the other aliases or their order. */
  lemma EditsKeepOthers(xs: seq<string>, vip: string)
    ensures Without(Without(xs, vip), vip) == Without(xs, vip)
    ensures Without(With(xs, vip), vip) == Without(xs, vip)
  {
    WithoutSpec(xs, vip);
    WithoutSpec(Without(xs, vip), vip);
    WithoutAppend(xs, [vip], vip);
  }

  /** Removing undoes adding exactly when the address was not there before. */
  lemma RemoveUndoesAdd(xs: seq<string>, vip: string)
    ensures Without(With(xs, vip), vip) == xs <==> vip !in xs
  {
    WithoutSpec(xs, vip);
    EditsKeepOthers(xs, vip);
  }

  lemma EditCounts(xs: seq<string>, vip: string)
    ensures Count(Without(xs, vip), vip) == 0
    ensures Count(With(xs, vip), vip) == if vip in xs then Count(xs, vip) else 1
  {
    WithoutSpec(xs, vip);
  }

  /** The same entries in the same order, not counting the VIP: walk both lists side by side and step over it. */
  predicate SameButVip(xs: seq<string>, ys: seq<string>, vip: string)
    decreases |xs| + |ys|
  {
    if xs != [] && xs[0] == vip then SameButVip(xs[1..], ys, vip)
    else if ys != [] && ys[0] == vip then SameButVip(xs, ys[1..], vip)
    else if xs == [] || ys == [] then xs == ys
    else xs[0] == ys[0] && SameButVip(xs[1..], ys[1..], vip)
  }

  lemma {:induction false} SameButVipIsWithout(xs: seq<string>, ys: seq<string>, vip: string)
    ensures SameButVip(xs, ys, vip) <==> Without(xs, vip) == Without(ys, vip)
    decreases |xs| + |ys|
  {
    if xs != [] && xs[0] == vip {
      SameButVipIsWithout(xs[1..], ys, vip);
    } else if ys != [] && ys[0] == vip {
      SameButVipIsWithout(xs, ys[1..], vip);
    } else if xs != [] && ys != [] {
      SameButVipIsWithout(xs[1..], ys[1..], vip);
      assert Without(xs, vip)[0] == xs[0] && Without(ys, vip)[0] == ys[0];
      assert Without(xs, vip)[1..] == Without(xs[1..], vip) && Without(ys, vip)[1..] == Without(ys[1..], vip);
    }
  }
}
