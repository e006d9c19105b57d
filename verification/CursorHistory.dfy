/**
 * What the delta cursor answers, told by what it has answered before: who holds the lease, which commits are
 * repeated with success, and which link is found, for the memory store and for the Azure row under interference.
 */
module CursorHistory {
  import opened Prelude
  import opened CursorStores

  /** One operation on a drive, with its answer. */
  datatype Event<L, O> = Event(op: Op<L, O>, now: int, answer: Answer<L>)

  function After<L(==), O(==)>(h: seq<Event<L, O>>): Mem<L, O> {
    if h == [] then Mem(None, None, None)
    else MemStep(After(h[..|h| - 1]), h[|h| - 1].op, h[|h| - 1].now).0
  }

  predicate AnswersNext<L(==), O(==)>(h: seq<Event<L, O>>, e: Event<L, O>) {
    e.answer == MemStep(After(h), e.op, e.now).1
  }

  /** The operations on a new drive, in order, and what the store answered. */
  ghost predicate Recorded<L(!new), O(!new)>(h: seq<Event<L, O>>) {
    forall k | 0 <= k < |h| :: AnswersNext(h[..k], h[k])
  }

  // ---- The past ----

  /** Something has happened, and nothing since has undone it. */
  ghost predicate Since<E>(h: seq<E>, starts: E -> bool, ends: E -> bool) {
    exists k :: 0 <= k < |h| && starts(h[k]) && forall l | k < l < |h| :: !ends(h[l])
  }

  lemma SinceNext<E>(h: seq<E>, e: E, starts: E -> bool, ends: E -> bool)
    ensures Since(h + [e], starts, ends) <==> starts(e) || (Since(h, starts, ends) && !ends(e))
  {
    var all := h + [e];
    if starts(e) {
      assert starts(all[|h|]);
    } else if Since(h, starts, ends) && !ends(e) {
      var k :| 0 <= k < |h| && starts(h[k]) && forall l | k < l < |h| :: !ends(h[l]);
      assert starts(all[k]) && forall l | k < l < |all| :: !ends(all[l]);
    }
    if Since(all, starts, ends) && !starts(e) {
      var k :| 0 <= k < |all| && starts(all[k]) && forall l | k < l < |all| :: !ends(all[l]);
      assert starts(h[k]) && !ends(all[|h|]);
      forall l | k < l < |h| ensures !ends(h[l]) {
        assert !ends(all[l]);
      }
    }
  }

  predicate Yes<L(==), O>(e: Event<L, O>) {
    e.answer == Said(true)
  }

  predicate Grants<L(==), O(==)>(e: Event<L, O>, owner: O, until: int) {
    Yes(e) && (e.op.Acquire? || e.op.Renew?) && e.op.owner == owner && e.now + e.op.seconds == until
  }

  /** A granted lease replaces the one before; a commit and the owner's release end it. */
  predicate EndsLease<L(==), O(==)>(e: Event<L, O>, owner: O) {
    || (Yes(e) && (e.op.Acquire? || e.op.Renew? || e.op.Commit?))
    || e.op == Release(owner)
  }

  ghost predicate Leased<L(!new), O(!new)>(h: seq<Event<L, O>>, owner: O, until: int) {
    Since(h, (e: Event<L, O>) => Grants(e, owner, until), (e: Event<L, O>) => EndsLease(e, owner))
  }

  ghost predicate Holds<L(!new), O(!new)>(h: seq<Event<L, O>>, owner: O) {
    exists until :: Leased(h, owner, until)
  }

  predicate EndsCommit<L(==), O>(e: Event<L, O>) {
    e.op.Set? || (Yes(e) && (e.op.Acquire? || e.op.Commit?))
  }

  /** The commit has succeeded, and since then no link was set or committed and no lease acquired. */
  ghost predicate Stands<L(!new), O(!new)>(h: seq<Event<L, O>>, link: L, owner: O) {
    Since(h, (e: Event<L, O>) => Yes(e) && e.op == Commit(link, owner), (e: Event<L, O>) => EndsCommit(e))
  }

  predicate Writes<L(==), O(==)>(e: Event<L, O>) {
    e.op.Set? || (e.op.Commit? && Yes(e))
  }

  ghost predicate LastWritten<L(!new), O(!new)>(h: seq<Event<L, O>>, link: L) {
    Since(h, (e: Event<L, O>) => Writes(e) && e.op.link == link, (e: Event<L, O>) => Writes(e))
  }

  // ---- The memory store's state is its past ----

  ghost predicate Reflects<L(!new), O(!new)>(h: seq<Event<L, O>>, m: Mem<L, O>) {
    && (forall o, u :: m.lease == Some(Lease(o, u)) <==> Leased(h, o, u))
    && (forall l, o :: m.value == Some(l) && m.committed == Some(o) <==> Stands(h, l, o))
    && (forall l :: m.value == Some(l) <==> LastWritten(h, l))
    && (m.committed.Some? ==> m.value.Some? && m.lease.None?)
  }

  lemma LeaseNext<L(!new), O(!new)>(h: seq<Event<L, O>>, m: Mem<L, O>, e: Event<L, O>, o: O, u: int)
    requires m.lease == Some(Lease(o, u)) <==> Leased(h, o, u)
    requires m.committed.Some? ==> m.lease.None?
    requires e.answer == MemStep(m, e.op, e.now).1
    ensures MemStep(m, e.op, e.now).0.lease == Some(Lease(o, u)) <==> Leased(h + [e], o, u)
  {
    SinceNext(h, e, (e: Event<L, O>) => Grants(e, o, u), (e: Event<L, O>) => EndsLease(e, o));
  }

  lemma CommitNext<L(!new), O(!new)>(h: seq<Event<L, O>>, m: Mem<L, O>, e: Event<L, O>, l: L, o: O)
    requires m.value == Some(l) && m.committed == Some(o) <==> Stands(h, l, o)
    requires e.answer == MemStep(m, e.op, e.now).1
    ensures var later := MemStep(m, e.op, e.now).0;
      later.value == Some(l) && later.committed == Some(o) <==> Stands(h + [e], l, o)
  {
    SinceNext(h, e, (e: Event<L, O>) => Yes(e) && e.op == Commit(l, o), (e: Event<L, O>) => EndsCommit(e));
  }

  lemma LinkNext<L(!new), O(!new)>(h: seq<Event<L, O>>, m: Mem<L, O>, e: Event<L, O>, l: L)
    requires m.value == Some(l) <==> LastWritten(h, l)
    requires e.answer == MemStep(m, e.op, e.now).1
    ensures MemStep(m, e.op, e.now).0.value == Some(l) <==> LastWritten(h + [e], l)
  {
    SinceNext(h, e, (e: Event<L, O>) => Writes(e) && e.op.link == l, (e: Event<L, O>) => Writes(e));
  }

  lemma ReflectsNext<L(!new), O(!new)>(h: seq<Event<L, O>>, m: Mem<L, O>, e: Event<L, O>)
    requires Reflects(h, m) && e.answer == MemStep(m, e.op, e.now).1
    ensures Reflects(h + [e], MemStep(m, e.op, e.now).0)
  {
    var later := MemStep(m, e.op, e.now).0;
    forall o, u ensures later.lease == Some(Lease(o, u)) <==> Leased(h + [e], o, u) {
      LeaseNext(h, m, e, o, u);
    }
    forall l, o ensures later.value == Some(l) && later.committed == Some(o) <==> Stands(h + [e], l, o) {
      CommitNext(h, m, e, l, o);
    }
    forall l ensures later.value == Some(l) <==> LastWritten(h + [e], l) {
      LinkNext(h, m, e, l);
    }
  }

  lemma RecordedNext<L(!new), O(!new)>(h: seq<Event<L, O>>, e: Event<L, O>)
    ensures Recorded(h + [e]) <==> Recorded(h) && AnswersNext(h, e)
    ensures After(h + [e]) == MemStep(After(h), e.op, e.now).0
  {
    var all := h + [e];
    assert all[..|h|] == h && all[|h|] == e;
    assert forall k | 0 <= k < |h| :: all[..k] == h[..k] && all[k] == h[k];
  }

  lemma {:induction false} StateIsThePast<L(!new), O(!new)>(h: seq<Event<L, O>>)
    requires Recorded(h)
    ensures Reflects(h, After(h))
  {
    if h != [] {
      var front, e := h[..|h| - 1], h[|h| - 1];
      assert h == front + [e];
      RecordedNext(front, e);
      StateIsThePast(front);
      ReflectsNext(front, After(front), e);
    }
  }

  /**
   * Every answer of the memory store, from its past answers alone. An acquire is refused if and only if another
   * owner's lease runs; a renewal succeeds if and only if the owner holds the lease; a commit if and only if the
   * owner holds the lease or this very commit still stands; and the link found is the one last written.
   */
  lemma AnswersAreThePast<L(!new), O(!new)>(h: seq<Event<L, O>>, e: Event<L, O>)
    requires Recorded(h) && AnswersNext(h, e)
    ensures match e.op
      case Get => forall l :: e.answer == Found(Some(l)) <==> LastWritten(h, l)
      case Set(_) => e.answer == Done
      case Acquire(owner, _) =>
        e.answer == Said(!exists o, until :: Leased(h, o, until) && o != owner && until > e.now)
      case Renew(owner, _) => e.answer == Said(Holds(h, owner))
      case Commit(link, owner) => e.answer == Said(Holds(h, owner) || Stands(h, link, owner))
      case Release(_) => e.answer == Done
  {
    StateIsThePast(h);
  }

  // ---- A commit acknowledged twice ----

  predicate Disturbs<L(==), O>(e: Event<L, O>) {
    e.op.Set? || (e.op.Acquire? && Yes(e))
  }

  /** The owner has committed the link and has no lease; `quiet`: nothing has disturbed the commit. */
  predicate Committed<L(==), O(==)>(m: Mem<L, O>, link: L, owner: O, quiet: bool) {
    && (m.lease.Some? ==> m.lease.value.owner != owner)
    && (if quiet then m == Mem(Some(link), None, Some(owner)) else m.committed != Some(owner))
  }

  ghost predicate QuietAfter<L(!new), O(!new)>(h: seq<Event<L, O>>, i: nat) {
    forall k | i < k < |h| :: !Disturbs(h[k])
  }

  lemma QuietNext<L(!new), O(!new)>(h: seq<Event<L, O>>, e: Event<L, O>, i: nat)
    requires i < |h|
    ensures QuietAfter(h + [e], i) <==> QuietAfter(h, i) && !Disturbs(e)
  {
    var all := h + [e];
    assert all[|h|] == e;
    if QuietAfter(all, i) {
      forall k | i < k < |h| ensures !Disturbs(h[k]) {
        assert !Disturbs(all[k]);
      }
    }
  }

  lemma CommitIsCommitted<L(!new), O(!new)>(h: seq<Event<L, O>>, e: Event<L, O>, link: L, owner: O)
    requires Recorded(h) && AnswersNext(h, e) && e.op == Commit(link, owner) && Yes(e)
    ensures Committed(MemStep(After(h), e.op, e.now).0, link, owner, true)
  {
    StateIsThePast(h);
  }

  lemma CommittedNext<L(!new), O(!new)>(m: Mem<L, O>, e: Event<L, O>, link: L, owner: O, quiet: bool)
    requires Committed(m, link, owner, quiet) && e.answer == MemStep(m, e.op, e.now).1
    requires e.op.Acquire? && Yes(e) ==> e.op.owner != owner
    ensures Committed(MemStep(m, e.op, e.now).0, link, owner, quiet && !Disturbs(e))
  {
  }

  lemma {:induction false} CommittedSince<L(!new), O(!new)>(h: seq<Event<L, O>>, i: nat, link: L, owner: O)
    requires Recorded(h) && i < |h| && h[i].op == Commit(link, owner) && Yes(h[i])
    requires forall k | i < k < |h| && h[k].op.Acquire? && Yes(h[k]) :: h[k].op.owner != owner
    ensures Committed(After(h), link, owner, QuietAfter(h, i))
  {
    var front, e := h[..|h| - 1], h[|h| - 1];
    assert h == front + [e];
    RecordedNext(front, e);
    if i < |front| {
      assert forall k | 0 <= k < |front| :: h[k] == front[k];
      CommittedSince(front, i, link, owner);
      QuietNext(front, e, i);
      CommittedNext(After(front), e, link, owner, QuietAfter(front, i));
    } else {
      CommitIsCommitted(front, e, link, owner);
    }
  }

  /**
   * A commit that has succeeded and is repeated, its owner having acquired no new lease: it succeeds again, and
   * changes nothing, if and only if since then nobody has set a link or acquired the lease.
   */
  lemma RepeatedCommit<L(!new), O(!new)>(h: seq<Event<L, O>>, i: nat, e: Event<L, O>)
    requires Recorded(h) && AnswersNext(h, e) && i < |h|
    requires h[i].op.Commit? && Yes(h[i]) && e.op == h[i].op
    requires forall k | i < k < |h| && h[k].op.Acquire? && Yes(h[k]) :: h[k].op.owner != e.op.owner
    ensures e.answer == Said(QuietAfter(h, i)) && After(h + [e]) == After(h)
  {
    CommittedSince(h, i, e.op.link, e.op.owner);
    RecordedNext(h, e);
  }

  // ---- The Azure row, with any number of clients between each other's reads and writes ----

  /** A write of the row, by an operation that has read the row as it was after the first `read` writes. */
  datatype Write<L, O> = Write(op: Op<L, O>, now: int, read: nat)

  /** The `k`-th write goes through, with an etag of its own. */
  predicate GoesThrough<L(==), O(==)>(rows: seq<Option<Row<L, O>>>, k: nat, w: Write<L, O>)
    requires k + 1 < |rows|
  {
    match w.op
    case Get => false
    case Set(link) => rows[k + 1] == Merged(rows[k], Some(link), k)
    case _ =>
      && w.read <= k && !PlanOf(rows[w.read], w.op, w.now).AlreadyDone?
      && Execute(rows[k], rows[w.read], PlanOf(rows[w.read], w.op, w.now), k) == (rows[k + 1], true)
  }

  /** All that has ever been written of a drive's row. */
  ghost predicate RowHistory<L(!new), O(!new)>(rows: seq<Option<Row<L, O>>>, writes: seq<Write<L, O>>) {
    && |rows| == |writes| + 1 && rows[0] == None
    && forall k | 0 <= k < |writes| :: GoesThrough(rows, k, writes[k])
  }

  function EventOf<L, O>(w: Write<L, O>): Event<L, O> {
    Event(w.op, w.now, if w.op.Set? || w.op.Release? then Done else Said(true))
  }

  /** The first `n` writes, as operations of the memory store. */
  function Past<L, O>(writes: seq<Write<L, O>>, n: nat): seq<Event<L, O>>
    requires n <= |writes|
  {
    seq(n, k requires 0 <= k < n => EventOf(writes[k]))
  }

  lemma EtagsAreFresh<L(!new), O(!new)>(rows: seq<Option<Row<L, O>>>, writes: seq<Write<L, O>>, k: nat)
    requires RowHistory(rows, writes) && k < |rows|
    ensures if k == 0 then rows[k].None? else rows[k].Some? && rows[k].value.etag == k - 1
  {
    if k > 0 {
      assert GoesThrough(rows, k - 1, writes[k - 1]);
    }
  }

  lemma ConditionalWritesAreCurrent<L(!new), O(!new)>(
    rows: seq<Option<Row<L, O>>>, writes: seq<Write<L, O>>, op: Op<L, O>, now: int, r: nat, k: nat, etag: nat)
    requires RowHistory(rows, writes) && r <= k < |rows| && !op.Get? && !op.Set?
    ensures var plan := PlanOf(rows[r], op, now);
      Execute(rows[k], rows[r], plan, etag).1 <==> plan.AlreadyDone? || (!plan.Refuse? && r == k)
  {
    EtagsAreFresh(rows, writes, r);
    EtagsAreFresh(rows, writes, k);
  }

  lemma WriteIsAnEvent<L(!new), O(!new)>(rows: seq<Option<Row<L, O>>>, writes: seq<Write<L, O>>, k: nat)
    requires RowHistory(rows, writes) && k < |writes| && WellFormed(rows[k])
    ensures WellFormed(rows[k + 1])
    ensures MemStep(Abs(rows[k]), writes[k].op, writes[k].now) == (Abs(rows[k + 1]), EventOf(writes[k]).answer)
  {
    var w := writes[k];
    assert GoesThrough(rows, k, w);
    if !w.op.Set? {
      ConditionalWritesAreCurrent(rows, writes, w.op, w.now, w.read, k, k);
    }
  }

  /** The row is what the memory store makes of its writes. */
  lemma {:induction false} RowIsThePast<L(!new), O(!new)>(
    rows: seq<Option<Row<L, O>>>, writes: seq<Write<L, O>>, n: nat)
    requires RowHistory(rows, writes) && n < |rows|
    ensures Recorded(Past(writes, n)) && After(Past(writes, n)) == Abs(rows[n]) && WellFormed(rows[n])
  {
    if n > 0 {
      RowIsThePast(rows, writes, n - 1);
      WriteIsAnEvent(rows, writes, n - 1);
      assert Past(writes, n) == Past(writes, n - 1) + [EventOf(writes[n - 1])];
      RecordedNext(Past(writes, n - 1), EventOf(writes[n - 1]));
    }
  }

  /**
   * The answers of an Azure operation that reads the row after `r` writes and writes it when there are `w`, from
   * the past of its read: a commit succeeds if and only if it still stood when it was read, and then changes
   * nothing, or the owner held the lease and nobody wrote the row in between; a renewal if and only if the latter;
   * an acquire only if no other owner's lease ran and nobody wrote, and, where a free row's lease is over, if so.
   */
  lemma AzureAnswersAreThePast<L(!new), O(!new)>(rows: seq<Option<Row<L, O>>>, writes: seq<Write<L, O>>,
      op: Op<L, O>, now: int, r: nat, w: nat, etag: nat)
    requires RowHistory(rows, writes) && r <= w < |rows| && !op.Get? && !op.Set?
    ensures var (after, ok) := Execute(rows[w], rows[r], PlanOf(rows[r], op, now), etag);
      var past := Past(writes, r);
      match op
      case Acquire(owner, _) =>
        var free := r == w && !exists o, until :: Leased(past, o, until) && o != owner && until > now;
        (ok ==> free) && (free && Settled(rows[r], now) ==> ok)
      case Renew(owner, _) => ok <==> Holds(past, owner) && r == w
      case Commit(link, owner) =>
        && (ok <==> Stands(past, link, owner) || (Holds(past, owner) && r == w))
        && (Stands(past, link, owner) ==> after == rows[w])
      case Release(owner) => ok <==> Holds(past, owner) && r == w
  {
    RowIsThePast(rows, writes, r);
    StateIsThePast(Past(writes, r));
    ConditionalWritesAreCurrent(rows, writes, op, now, r, w, etag);
  }
}
