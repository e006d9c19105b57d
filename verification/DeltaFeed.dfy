/** Reading a delta feed page by page and collapsing it (onedrive.py, onedrive_sync.py). */
module DeltaFeed {
  import opened Prelude

  /** A drive-item change; the empty id stands for an absent one. */
  datatype Change = Change(id: string, body: string)

  // ---- Following the pages of one listing ----

  /** One response: `values` is None when the field is no list; empty links are absent ones. */
  datatype Page = Page(values: Option<seq<Change>>, nextLink: string, deltaLink: string)

  datatype FeedError = InvalidValue | OmittedDeltaLink | EndedWithoutCursor

  type Listing = Result<(seq<Change>, string), FeedError>

  /** What the pages say: all their changes in order, up to the first page without a next link. */
  function ListingOf(pages: seq<Page>): Listing {
    if pages == [] then Err(EndedWithoutCursor)
    else if pages[0].values.None? then Err(InvalidValue)
    else if pages[0].nextLink != "" then
      match ListingOf(pages[1..])
      case Err(e) => Err(e)
      case Ok((changes, link)) => Ok((pages[0].values.value + changes, link))
    else if pages[0].deltaLink == "" then Err(OmittedDeltaLink)
    else Ok((pages[0].values.value, pages[0].deltaLink))
  }

  function AllValues(pages: seq<Page>): seq<Change>
    requires forall p | p in pages :: p.values.Some?
  {
    if pages == [] then [] else pages[0].values.value + AllValues(pages[1..])
  }

  /**
   * Following the links loses and repeats nothing: `k` pages continue, and the next, if any, does not. Then all their
   * changes come back in order with the cursor of the last, or else what is wrong with the last one is reported.
   */
  lemma {:induction false} PagingIsTransparent(pages: seq<Page>, k: nat)
    requires k <= |pages| && forall p | p in pages[..k] :: p.values.Some? && p.nextLink != ""
    requires k < |pages| && pages[k].values.Some? ==> pages[k].nextLink == ""
    ensures ListingOf(pages) ==
      if k == |pages| then Err(EndedWithoutCursor)
      else if pages[k].values.None? then Err(InvalidValue)
      else if pages[k].deltaLink == "" then Err(OmittedDeltaLink)
      else Ok((AllValues(pages[..k]) + pages[k].values.value, pages[k].deltaLink))
  {
    if k > 0 {
      assert pages[0] in pages[..k];
      assert pages[1..][..k - 1] == pages[..k][1..];
      PagingIsTransparent(pages[1..], k - 1);
      if k < |pages| && pages[k].values.Some? {
        var (first, rest, last) := (pages[0].values.value, AllValues(pages[1..][..k - 1]), pages[k].values.value);
        assert first + (rest + last) == first + rest + last;
      }
    } else if k < |pages| && pages[k].values.Some? {
      assert [] + pages[k].values.value == pages[k].values.value;
    }
  }

  ghost function Prepend(changes: seq<Change>, r: Listing): Listing {
    match r
    case Err(e) => Err(e)
    case Ok((more, link)) => Ok((changes + more, link))
  }

  lemma PrependNothing(pages: seq<Page>)
    ensures Prepend([], ListingOf(pages[0..])) == ListingOf(pages)
  {
    assert pages[0..] == pages;
    if ListingOf(pages).Ok? {
      assert [] + ListingOf(pages).value.0 == ListingOf(pages).value.0;
    }
  }

  lemma PrependTwice(xs: seq<Change>, ys: seq<Change>, r: Listing)
    ensures Prepend(xs, Prepend(ys, r)) == Prepend(xs + ys, r)
  {
    if r.Ok? {
      assert xs + (ys + r.value.0) == xs + ys + r.value.0;
    }
  }

  /** The page-following loop; `pages` are the responses in the order the requests get them. */
  method ListDelta(pages: seq<Page>) returns (r: Listing)
    ensures r == ListingOf(pages)
  {
    var changes: seq<Change> := [];
    PrependNothing(pages);
    for i := 0 to |pages|
      invariant ListingOf(pages) == Prepend(changes, ListingOf(pages[i..]))
    {
      var page := pages[i];
      assert pages[i..][0] == page && pages[i..][1..] == pages[i + 1..];
      if page.values.None? {
        return Err(InvalidValue);
      }
      PrependTwice(changes, page.values.value, ListingOf(pages[i + 1..]));
      changes := changes + page.values.value;
      if page.nextLink == "" {
        if page.deltaLink == "" {
          return Err(OmittedDeltaLink);
        }
        return Ok((changes, page.deltaLink));
      }
    }
    return Err(EndedWithoutCursor);
  }

  // ---- Collapsing ----

  /** Insertion-ordered ids of the changes: a Python dict keeps an updated key in its first place. */
  function Ids(cs: seq<Change>): seq<string> {
    if cs == [] then []
    else
      var ids, id := Ids(cs[..|cs| - 1]), cs[|cs| - 1].id;
      if id == "" || id in ids then ids else ids + [id]
  }

  function LastById(cs: seq<Change>): map<string, Change> {
    if cs == [] then map[]
    else
      var c := cs[|cs| - 1];
      if c.id == "" then LastById(cs[..|cs| - 1]) else LastById(cs[..|cs| - 1])[c.id := c]
  }

  function WithoutId(cs: seq<Change>): seq<Change> {
    if cs == [] then []
    else
      var c := cs[|cs| - 1];
      WithoutId(cs[..|cs| - 1]) + if c.id == "" then [c] else []
  }

  lemma {:induction false} IdsAreKeys(cs: seq<Change>)
    ensures forall id :: id in Ids(cs) <==> id in LastById(cs)
    ensures forall id | id in LastById(cs) :: LastById(cs)[id].id == id != ""
    ensures forall i, j | 0 <= i < j < |Ids(cs)| :: Ids(cs)[i] != Ids(cs)[j]
  {
    if cs != [] {
      IdsAreKeys(cs[..|cs| - 1]);
    }
  }

  function ValuesInOrder(ids: seq<string>, byId: map<string, Change>): seq<Change>
    requires forall id | id in ids :: id in byId
  {
    seq(|ids|, i requires 0 <= i < |ids| => assert ids[i] in ids; byId[ids[i]])
  }

  function Collapsed(cs: seq<Change>): seq<Change> {
    IdsAreKeys(cs);
    ValuesInOrder(Ids(cs), LastById(cs)) + WithoutId(cs)
  }

  /** A consumer's copy of the drive: the latest change per item and the changes naming no item. */
  datatype Replica = Replica(items: map<string, Change>, anonymous: seq<Change>)

  function Apply(r: Replica, c: Change): Replica {
    if c.id == "" then r.(anonymous := r.anonymous + [c]) else r.(items := r.items[c.id := c])
  }

  function Replay(r: Replica, cs: seq<Change>): Replica {
    if cs == [] then r else Apply(Replay(r, cs[..|cs| - 1]), cs[|cs| - 1])
  }

  lemma {:induction false} ReplayAppend(r: Replica, xs: seq<Change>, ys: seq<Change>)
    ensures Replay(r, xs + ys) == Replay(Replay(r, xs), ys)
    decreases |ys|
  {
    if ys == [] {
      assert xs + ys == xs;
    } else {
      var all := xs + ys;
      assert all[..|all| - 1] == xs + ys[..|ys| - 1] && all[|all| - 1] == ys[|ys| - 1];
      ReplayAppend(r, xs, ys[..|ys| - 1]);
    }
  }

  /** Replaying leaves the last change of every item and all item-less changes in order. */
  lemma {:induction false} ReplayIsLastWins(r: Replica, cs: seq<Change>)
    ensures Replay(r, cs).items == r.items + LastById(cs)
    ensures Replay(r, cs).anonymous == r.anonymous + WithoutId(cs)
  {
    if cs != [] {
      ReplayIsLastWins(r, cs[..|cs| - 1]);
    }
  }

  function Chosen(ids: seq<string>, byId: map<string, Change>): map<string, Change>
    requires forall id | id in ids :: id in byId
  {
    map id | id in ids :: byId[id]
  }

  lemma ChosenNext(items: map<string, Change>, ids: seq<string>, id: string, byId: map<string, Change>)
    requires id in byId && forall i | i in ids :: i in byId
    ensures items + Chosen(ids + [id], byId) == (items + Chosen(ids, byId))[id := byId[id]]
  {
  }

  lemma {:induction false} ReplayOfValues(r: Replica, ids: seq<string>, byId: map<string, Change>)
    requires forall id | id in ids :: id in byId && byId[id].id == id != ""
    ensures Replay(r, ValuesInOrder(ids, byId)) == r.(items := r.items + Chosen(ids, byId))
  {
    var values := ValuesInOrder(ids, byId);
    if ids == [] {
      assert r.items + Chosen(ids, byId) == r.items;
    } else {
      var front, last := ids[..|ids| - 1], ids[|ids| - 1];
      assert values[..|values| - 1] == ValuesInOrder(front, byId);
      ReplayOfValues(r, front, byId);
      ChosenNext(r.items, front, last, byId);
      assert ids == front + [last];
    }
  }

  lemma {:induction false} ReplayOfAnonymous(r: Replica, cs: seq<Change>)
    requires forall c | c in cs :: c.id == ""
    ensures Replay(r, cs) == r.(anonymous := r.anonymous + cs)
  {
    if cs == [] {
      assert r.anonymous + cs == r.anonymous;
    } else {
      ReplayOfAnonymous(r, cs[..|cs| - 1]);
      assert cs == cs[..|cs| - 1] + [cs[|cs| - 1]];
    }
  }

  lemma {:induction false} WithoutIdIsTheSublist(cs: seq<Change>)
    ensures forall c | c in WithoutId(cs) :: c.id == "" && c in cs
    ensures forall c | c in cs && c.id == "" :: c in WithoutId(cs)
  {
    if cs != [] {
      WithoutIdIsTheSublist(cs[..|cs| - 1]);
      assert cs == cs[..|cs| - 1] + [cs[|cs| - 1]];
    }
  }

  /** Collapsing preserves meaning: any replica ends the same, whichever list it replays. */
  lemma CollapsePreservesReplay(r: Replica, cs: seq<Change>)
    ensures Replay(r, Collapsed(cs)) == Replay(r, cs)
  {
    IdsAreKeys(cs);
    WithoutIdIsTheSublist(cs);
    var values := ValuesInOrder(Ids(cs), LastById(cs));
    ReplayAppend(r, values, WithoutId(cs));
    ReplayOfValues(r, Ids(cs), LastById(cs));
    ReplayOfAnonymous(Replay(r, values), WithoutId(cs));
    ReplayIsLastWins(r, cs);
    assert Chosen(Ids(cs), LastById(cs)) == LastById(cs);
  }

  lemma {:induction false} EveryIdIsListed(cs: seq<Change>, c: Change)
    requires c in cs && c.id != ""
    ensures c.id in Ids(cs)
  {
    if c != cs[|cs| - 1] {
      EveryIdIsListed(cs[..|cs| - 1], c);
    }
  }

  /** The collapsed list names each item once, and keeps exactly the item-less changes, in order. */
  lemma CollapsedShape(cs: seq<Change>)
    ensures var out := Collapsed(cs);
      && (forall i, j | 0 <= i < j < |out| && out[i].id == out[j].id :: out[i].id == "")
      && (exists n :: 0 <= n <= |out| && out[n..] == WithoutId(cs) && forall c | c in out[..n] :: c.id != "")
      && (forall c | c in cs && c.id != "" :: exists d | d in out :: d.id == c.id)
  {
    IdsAreKeys(cs);
    WithoutIdIsTheSublist(cs);
    var out, n := Collapsed(cs), |Ids(cs)|;
    assert out[n..] == WithoutId(cs);
    forall i | 0 <= i < |out| ensures if i < n then out[i].id == Ids(cs)[i] else out[i].id == "" {
      if i < n {
        assert Ids(cs)[i] in Ids(cs);
      } else {
        assert out[i] == WithoutId(cs)[i - n];
      }
    }
    forall c | c in cs && c.id != "" ensures exists d | d in out :: d.id == c.id {
      EveryIdIsListed(cs, c);
      var k :| 0 <= k < |Ids(cs)| && Ids(cs)[k] == c.id;
      assert out[k] in out && out[k].id == c.id;
    }
    assert forall c | c in out[..n] :: c.id != "" by {
      forall c | c in out[..n] ensures c.id != "" {
        var k :| 0 <= k < n && out[k] == c;
        assert Ids(cs)[k] in Ids(cs);
      }
    }
  }

  /** Each change is represented by a change to the same item at its own position or a later one. */
  lemma {:induction false} LaterChangeWins(cs: seq<Change>, i: nat)
    requires i < |cs| && cs[i].id != ""
    ensures cs[i].id in LastById(cs)
    ensures exists j | i <= j < |cs| :: cs[j] == LastById(cs)[cs[i].id]
  {
    var front := cs[..|cs| - 1];
    if i < |front| {
      LaterChangeWins(front, i);
      var j :| i <= j < |front| && front[j] == LastById(front)[front[i].id];
      if cs[|cs| - 1].id == cs[i].id {
        assert cs[|cs| - 1] == LastById(cs)[cs[i].id];
      } else {
        assert cs[j] == LastById(cs)[cs[i].id];
      }
    }
  }

  /** What the collapsed list says about the change at position i. */
  lemma CollapsedRepresents(cs: seq<Change>, i: nat)
    requires i < |cs|
    ensures exists j | i <= j < |cs| :: cs[j].id == cs[i].id && cs[j] in Collapsed(cs) && (cs[i].id == "" ==> j == i)
  {
    IdsAreKeys(cs);
    WithoutIdIsTheSublist(cs);
    var out := Collapsed(cs);
    if cs[i].id == "" {
      assert cs[i] in WithoutId(cs) && cs[i] in out;
    } else {
      LaterChangeWins(cs, i);
      var j :| i <= j < |cs| && cs[j] == LastById(cs)[cs[i].id];
      var k :| 0 <= k < |Ids(cs)| && Ids(cs)[k] == cs[i].id;
      assert out[k] == cs[j];
    }
  }

  /** The collapse loop, with the dictionary as an ordered key list and a map. */
  method Collapse(changes: seq<Change>) returns (collapsed: seq<Change>)
    ensures collapsed == Collapsed(changes)
  {
    var order: seq<string> := [];
    var byId: map<string, Change> := map[];
    var withoutId: seq<Change> := [];
    for i := 0 to |changes|
      invariant order == Ids(changes[..i])
      invariant byId == LastById(changes[..i])
      invariant withoutId == WithoutId(changes[..i])
    {
      var change := changes[i];
      assert changes[..i + 1][..i] == changes[..i] && changes[..i + 1][i] == change;
      IdsAreKeys(changes[..i]);
      if change.id != "" {
        if change.id !in byId {
          order := order + [change.id];
        }
        byId := byId[change.id := change];
      } else {
        withoutId := withoutId + [change];
      }
    }
    assert changes[..|changes|] == changes;
    IdsAreKeys(changes);
    collapsed := ValuesInOrder(order, byId) + withoutId;
  }
}
