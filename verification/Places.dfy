/** Counting in how many slots of a sequence an id is. */
module Places {
  import opened Prelude

  function One(x: Option<nat>, id: nat): nat {
    if x == Some(id) then 1 else 0
  }

  function Count(xs: seq<Option<nat>>, id: nat): nat {
    if xs == [] then 0 else Count(xs[..|xs| - 1], id) + One(xs[|xs| - 1], id)
  }

  lemma CountAppended(xs: seq<Option<nat>>, x: Option<nat>, id: nat)
    ensures Count(xs + [x], id) == Count(xs, id) + One(x, id)
  {
    assert (xs + [x])[..|xs|] == xs;
  }

  lemma {:induction false} CountJoined(xs: seq<Option<nat>>, ys: seq<Option<nat>>, id: nat)
    ensures Count(xs + ys, id) == Count(xs, id) + Count(ys, id)
    decreases |ys|
  {
    if ys == [] {
      assert xs + ys == xs;
    } else {
      var front, last := ys[..|ys| - 1], ys[|ys| - 1];
      CountJoined(xs, front, id);
      CountAppended(xs + front, last, id);
      assert xs + ys == xs + front + [last];
    }
  }

  lemma CountRemoved(xs: seq<Option<nat>>, i: nat, id: nat)
    requires i < |xs|
    ensures Count(xs, id) == Count(xs[..i] + xs[i + 1..], id) + One(xs[i], id)
  {
    var (before, after) := (xs[..i], xs[i + 1..]);
    assert xs == before + [xs[i]] + after;
    CountJoined(before + [xs[i]], after, id);
    CountAppended(before, xs[i], id);
    CountJoined(before, after, id);
  }

  lemma CountReplaced(xs: seq<Option<nat>>, i: nat, x: Option<nat>, id: nat)
    requires i < |xs|
    ensures Count(xs[i := x], id) + One(xs[i], id) == Count(xs, id) + One(x, id)
  {
    CountRemoved(xs, i, id);
    CountRemoved(xs[i := x], i, id);
    assert xs[i := x][..i] == xs[..i] && xs[i := x][i + 1..] == xs[i + 1..];
  }

  lemma {:induction false} CountPositive(xs: seq<Option<nat>>, id: nat)
    ensures Count(xs, id) > 0 <==> Some(id) in xs
  {
    if xs != [] {
      CountPositive(xs[..|xs| - 1], id);
      assert xs == xs[..|xs| - 1] + [xs[|xs| - 1]];
    }
  }
}
