/**
 * The durable delta cursor with its timed lease (onedrive_sync.py): the memory store, the Azure
 * Table store as read step plus conditional write step, and the simulation of one by the other.
 */
module CursorStores {
  import opened Prelude

  // ---- The memory store, as operations on the state of one drive ----

  datatype Lease<O> = Lease(owner: O, until: int)

  datatype Mem<L, O> = Mem(value: Option<L>, lease: Option<Lease<O>>, committed: Option<O>)

  datatype Op<L, O> =
    | Get
    | Set(link: L)
    | Acquire(owner: O, seconds: nat)
    | Renew(owner: O, seconds: nat)
    | Commit(link: L, owner: O)
    | Release(owner: O)

  datatype Answer<L> = Found(link: Option<L>) | Said(yes: bool) | Done

  function MemStep<L(==), O(==)>(m: Mem<L, O>, op: Op<L, O>, now: int): (Mem<L, O>, Answer<L>) {
    match op
    case Get => (m, Found(m.value))
    case Set(link) => (m.(value := Some(link), committed := None), Done)
    case Acquire(owner, seconds) =>
      if m.lease.Some? && m.lease.value.until > now && m.lease.value.owner != owner then (m, Said(false))
      else (m.(lease := Some(Lease(owner, now + seconds)), committed := None), Said(true))
    case Renew(owner, seconds) =>
      if m.lease.None? || m.lease.value.owner != owner then (m, Said(false))
      else (m.(lease := Some(Lease(owner, now + seconds))), Said(true))
    case Commit(link, owner) =>
      if m.value == Some(link) && m.committed == Some(owner) then (m, Said(true))
      else if m.lease.None? || m.lease.value.owner != owner then (m, Said(false))
      else (Mem(Some(link), None, Some(owner)), Said(true))
    case Release(owner) =>
      (if m.lease.Some? && m.lease.value.owner == owner then m.(lease := None) else m, Done)
  }

  class MemoryDeltaCursorStore {
    var values: map<string, string>
    var leases: map<string, (string, int)>
    var committedOwners: map<string, string>

    constructor ()
      ensures forall drive :: View(drive) == Mem(None, None, None)
    {
      values, leases, committedOwners := map[], map[], map[];
    }

    ghost function View(drive: string): Mem<string, string>
      reads this
    {
      Mem(if drive in values then Some(values[drive]) else None,
          if drive in leases then Some(Lease(leases[drive].0, leases[drive].1)) else None,
          if drive in committedOwners then Some(committedOwners[drive]) else None)
    }

    method GetLink(drive: string) returns (link: Option<string>)
      ensures Found(link) == MemStep(View(drive), Get, 0).1
    {
      link := if drive in values then Some(values[drive]) else None;
    }

    method SetLink(drive: string, link: string)
      modifies this
      ensures View(drive) == MemStep(old(View(drive)), Set(link), 0).0
      ensures forall d | d != drive :: View(d) == old(View(d))
    {
      values := values[drive := link];
      committedOwners := committedOwners - {drive};
    }

    method AcquireLease(drive: string, owner: string, seconds: nat, now: int) returns (ok: bool)
      modifies this
      ensures (View(drive), Said(ok)) == MemStep(old(View(drive)), Acquire(owner, seconds), now)
      ensures forall d | d != drive :: View(d) == old(View(d))
    {
      if drive in leases && leases[drive].1 > now && leases[drive].0 != owner {
        return false;
      }
      leases := leases[drive := (owner, now + seconds)];
      committedOwners := committedOwners - {drive};
      return true;
    }

    method RenewLease(drive: string, owner: string, seconds: nat, now: int) returns (ok: bool)
      modifies this
      ensures (View(drive), Said(ok)) == MemStep(old(View(drive)), Renew(owner, seconds), now)
      ensures forall d | d != drive :: View(d) == old(View(d))
    {
      if drive !in leases || leases[drive].0 != owner {
        return false;
      }
      leases := leases[drive := (owner, now + seconds)];
      return true;
    }

    method CommitLink(drive: string, link: string, owner: string) returns (ok: bool)
      modifies this
      ensures (View(drive), Said(ok)) == MemStep(old(View(drive)), Commit(link, owner), 0)
      ensures forall d | d != drive :: View(d) == old(View(d))
    {
      if drive in values && values[drive] == link && drive in committedOwners && committedOwners[drive] == owner {
        return true;
      }
      if drive !in leases || leases[drive].0 != owner {
        return false;
      }
      values := values[drive := link];
      committedOwners := committedOwners[drive := owner];
      leases := leases - {drive};
      return true;
    }

    method ReleaseLease(drive: string, owner: string)
      modifies this
      ensures View(drive) == MemStep(old(View(drive)), Release(owner), 0).0
      ensures forall d | d != drive :: View(d) == old(View(d))
    {
      if drive in leases && leases[drive].0 == owner {
        leases := leases - {drive};
      }
    }
  }

  // ---- The Azure Table row: every operation reads it, decides, and writes conditionally ----

  /** None stands both for an absent column and for the empty text; every write has a fresh etag. */
  datatype Row<L, O> = Row(link: Option<L>, owner: Option<O>, until: Option<int>, committedBy: Option<O>, etag: nat)

  datatype Plan<L, O> = Refuse | AlreadyDone | Create(row: Row<L, O>) | Update(row: Row<L, O>)

  function PlanAcquire<L, O(==)>(entity: Option<Row<L, O>>, owner: Option<O>, seconds: nat, now: int): Plan<L, O> {
    match entity
    case None => Create(Row(None, owner, Some(now + seconds), None, 0))
    case Some(row) =>
      if row.until.Some? && row.until.value > now && row.owner != owner then Refuse
      else Update(row.(owner := owner, until := Some(now + seconds), committedBy := None))
  }

  function PlanRenew<L, O(==)>(entity: Option<Row<L, O>>, owner: Option<O>, seconds: nat, now: int): Plan<L, O> {
    if entity.None? || entity.value.owner != owner then Refuse
    else Update(entity.value.(until := Some(now + seconds)))
  }

  function PlanCommit<L(==), O(==)>(entity: Option<Row<L, O>>, link: Option<L>, owner: Option<O>, now: int)
      : Plan<L, O>
  {
    if entity.None? then Refuse
    else if entity.value.link == link && entity.value.committedBy == owner then AlreadyDone
    else if entity.value.owner != owner then Refuse
    else Update(entity.value.(link := link, owner := None, until := Some(now), committedBy := owner))
  }

  function PlanRelease<L, O(==)>(entity: Option<Row<L, O>>, owner: Option<O>, now: int): Plan<L, O> {
    if entity.None? || entity.value.owner != owner then Refuse
    else Update(entity.value.(owner := None, until := Some(now)))
  }

  /** The write step: creation needs an absent row, an update an unmodified one. */
  function Execute<L, O>(current: Option<Row<L, O>>, entity: Option<Row<L, O>>, plan: Plan<L, O>, etag: nat)
    : (Option<Row<L, O>>, bool)
  {
    match plan
    case Refuse => (current, false)
    case AlreadyDone => (current, true)
    case Create(row) => if current.None? then (Some(row.(etag := etag)), true) else (current, false)
    case Update(row) =>
      if current.Some? && entity.Some? && current.value.etag == entity.value.etag
      then (Some(row.(etag := etag)), true)
      else (current, false)
  }

  function Merged<L, O>(current: Option<Row<L, O>>, link: Option<L>, etag: nat): Option<Row<L, O>> {
    match current
    case None => Some(Row(link, None, None, None, etag))
    case Some(row) => Some(row.(link := link, committedBy := None, etag := etag))
  }

  // ---- The row simulates the memory state ----

  ghost function Abs<L, O>(row: Option<Row<L, O>>): Mem<L, O> {
    match row
    case None => Mem(None, None, None)
    case Some(r) =>
      Mem(r.link,
          if r.owner.Some? && r.until.Some? then Some(Lease(r.owner.value, r.until.value)) else None,
          r.committedBy)
  }

  ghost predicate WellFormed<L, O>(row: Option<Row<L, O>>) {
    row.Some? && row.value.owner.Some? ==> row.value.until.Some?
  }

  /** A free row's last lease ended by `now`: true of every row once the clock never runs back. */
  ghost predicate Settled<L, O>(row: Option<Row<L, O>>, now: int) {
    row.Some? && row.value.owner.None? && row.value.until.Some? ==> row.value.until.value <= now
  }

  function PlanOf<L(==), O(==)>(entity: Option<Row<L, O>>, op: Op<L, O>, now: int): Plan<L, O>
    requires !op.Get? && !op.Set?
  {
    match op
    case Acquire(owner, seconds) => PlanAcquire(entity, Some(owner), seconds, now)
    case Renew(owner, seconds) => PlanRenew(entity, Some(owner), seconds, now)
    case Commit(link, owner) => PlanCommit(entity, Some(link), Some(owner), now)
    case Release(owner) => PlanRelease(entity, Some(owner), now)
  }

  /**
   * Under contention: whatever other clients did to the row between the read and the write, a true
   * answer is the memory operation's at one of these two moments, and a false one changed nothing.
   */
  lemma TrueAnswersAreAtomic<L, O>(
    op: Op<L, O>, entity: Option<Row<L, O>>, current: Option<Row<L, O>>, now: int, etag: nat)
    requires !op.Get? && !op.Set?
    requires WellFormed(entity) && WellFormed(current)
    requires entity.Some? && current.Some? && entity.value.etag == current.value.etag ==> entity == current
    ensures var plan := PlanOf(entity, op, now);
      var (after, ok) := Execute(current, entity, plan, etag);
      && WellFormed(after)
      && (!ok ==> after == current)
      && (ok ==>
            || (Abs(after), if op.Release? then Done else Said(true)) == MemStep(Abs(current), op, now)
            || (after == current && (Abs(entity), Said(true)) == MemStep(Abs(entity), op, now)))
  {
  }

  /** One Azure operation that nobody interferes with. */
  function AzureStep<L(==), O(==)>(row: Option<Row<L, O>>, op: Op<L, O>, now: int, etag: nat)
    : (Option<Row<L, O>>, Answer<L>)
  {
    match op
    case Get => (row, Found(if row.Some? then row.value.link else None))
    case Set(link) => (Merged(row, Some(link), etag), Done)
    case Release(_) => (Execute(row, row, PlanOf(row, op, now), etag).0, Done)
    case _ => var (after, ok) := Execute(row, row, PlanOf(row, op, now), etag); (after, Said(ok))
  }

  lemma UncontendedStepsAgree<L, O>(row: Option<Row<L, O>>, op: Op<L, O>, now: int, etag: nat)
    requires WellFormed(row) && Settled(row, now)
    ensures WellFormed(AzureStep(row, op, now, etag).0) && Settled(AzureStep(row, op, now, etag).0, now)
    ensures (Abs(AzureStep(row, op, now, etag).0), AzureStep(row, op, now, etag).1) == MemStep(Abs(row), op, now)
  {
  }

  function MemRun<L(==), O(==)>(m: Mem<L, O>, ops: seq<(Op<L, O>, int)>): seq<Answer<L>>
    decreases |ops|
  {
    if ops == [] then [] else
      var (after, answer) := MemStep(m, ops[0].0, ops[0].1);
      [answer] + MemRun(after, ops[1..])
  }

  function AzureRun<L(==), O(==)>(row: Option<Row<L, O>>, ops: seq<(Op<L, O>, int)>, etag: nat): seq<Answer<L>>
    decreases |ops|
  {
    if ops == [] then [] else
      var (after, answer) := AzureStep(row, ops[0].0, ops[0].1, etag);
      [answer] + AzureRun(after, ops[1..], etag + 1)
  }

  /** Without contention the two stores give the same answers to every sequence of operations. */
  lemma {:induction false} StoresAnswerAlike<L, O>(row: Option<Row<L, O>>, ops: seq<(Op<L, O>, int)>, etag: nat)
    requires WellFormed(row)
    requires ops != [] ==> Settled(row, ops[0].1)
    requires forall i, j | 0 <= i < j < |ops| :: ops[i].1 <= ops[j].1
    ensures AzureRun(row, ops, etag) == MemRun(Abs(row), ops)
    decreases |ops|
  {
    if ops != [] {
      var (op, now) := ops[0];
      UncontendedStepsAgree(row, op, now, etag);
      var after := AzureStep(row, op, now, etag).0;
      assert |ops| > 1 ==> ops[0].1 <= ops[1].1;
      StoresAnswerAlike(after, ops[1..], etag + 1);
    }
  }

  // ---- The Azure store over a table that other clients write, too ----

  /** The row once other clients have written `others` over it, each with an etag of its own. */
  function Overwritten(row: Option<Row<string, string>>, others: seq<Row<string, string>>, etag: nat)
    : Option<Row<string, string>>
  {
    if others == [] then row else Some(others[|others| - 1].(etag := etag + |others| - 1))
  }

  function Present(s: string): Option<string> {
    if s == "" then None else Some(s)
  }

  class CursorTable {
    var rows: map<string, Row<string, string>>
    var nextEtag: nat

    constructor ()
      ensures rows == map[] && Valid()
    {
      rows, nextEtag := map[], 0;
    }

    ghost predicate Valid()
      reads this
    {
      forall k | k in rows :: rows[k].etag < nextEtag && WellFormed(Some(rows[k]))
    }

    function RowOf(key: string): Option<Row<string, string>>
      reads this
    {
      if key in rows then Some(rows[key]) else None
    }

    ghost predicate Others(key: string, before: map<string, Row<string, string>>)
      reads this
    {
      rows - {key} == before - {key}
    }

    method Write(key: string, row: Row<string, string>)
      requires Valid() && WellFormed(Some(row))
      modifies this
      ensures Valid() && Others(key, old(rows)) && nextEtag == old(nextEtag) + 1
      ensures RowOf(key) == Some(row.(etag := old(nextEtag)))
    {
      rows := rows[key := row.(etag := nextEtag)];
      nextEtag := nextEtag + 1;
    }

    method OthersWrite(key: string, others: seq<Row<string, string>>)
      requires Valid() && forall row | row in others :: WellFormed(Some(row))
      modifies this
      ensures Valid() && Others(key, old(rows)) && nextEtag == old(nextEtag) + |others|
      ensures RowOf(key) == Overwritten(old(RowOf(key)), others, old(nextEtag))
    {
      for i := 0 to |others|
        invariant Valid() && Others(key, old(rows)) && nextEtag == old(nextEtag) + i
        invariant RowOf(key) == Overwritten(old(RowOf(key)), others[..i], old(nextEtag))
      {
        Write(key, others[i]);
      }
      assert others[..|others|] == others;
    }

    method CreateEntity(key: string, row: Row<string, string>) returns (ok: bool)
      requires Valid() && WellFormed(Some(row))
      modifies this
      ensures Valid() && Others(key, old(rows))
      ensures (RowOf(key), ok) == Execute(old(RowOf(key)), None, Create(row), old(nextEtag))
    {
      if key in rows {
        return false;
      }
      Write(key, row);
      return true;
    }

    method UpdateEntity(key: string, row: Row<string, string>, etag: nat) returns (ok: bool)
      requires Valid() && WellFormed(Some(row))
      modifies this
      ensures Valid() && Others(key, old(rows))
      ensures (RowOf(key), ok) == Execute(old(RowOf(key)), Some(row.(etag := etag)), Update(row), old(nextEtag))
    {
      if key !in rows || rows[key].etag != etag {
        return false;
      }
      Write(key, row);
      return true;
    }
  }

  /**
   * `others` are the writes of other clients to the row between an operation's read and its write.
   * Each contract names the row they leave; `TrueAnswersAreAtomic` says what that means.
   */
  class AzureTableDeltaCursorStore {
    const table: CursorTable

    constructor (table: CursorTable)
      ensures this.table == table
    {
      this.table := table;
    }

    method GetLink(drive: string) returns (link: Option<string>)
      ensures link == if table.RowOf(drive).Some? then table.RowOf(drive).value.link else None
    {
      var entity := table.RowOf(drive);
      link := if entity.Some? then entity.value.link else None;
    }

    method SetLink(drive: string, link: string)
      requires table.Valid()
      modifies table
      ensures table.Valid() && table.Others(drive, old(table.rows))
      ensures table.RowOf(drive) == Merged(old(table.RowOf(drive)), Present(link), old(table.nextEtag))
      ensures table.RowOf(drive).value.link == if link == "" then None else Some(link)
    {
      if drive in table.rows {
        table.Write(drive, table.rows[drive].(link := Present(link), committedBy := None));
      } else {
        table.Write(drive, Row(Present(link), None, None, None, 0));
      }
    }

    method AcquireLease(drive: string, owner: string, seconds: nat, now: int, others: seq<Row<string, string>>)
      returns (ok: bool)
      requires table.Valid() && forall row | row in others :: WellFormed(Some(row))
      modifies table
      ensures table.Valid() && table.Others(drive, old(table.rows))
      ensures var entity := old(table.RowOf(drive));
        (table.RowOf(drive), ok)
        == Execute(Overwritten(entity, others, old(table.nextEtag)), entity,
                   PlanAcquire(entity, Present(owner), seconds, now), old(table.nextEtag) + |others|)
      ensures var entity := old(table.RowOf(drive));
        var mid := Overwritten(entity, others, old(table.nextEtag));
        && (!ok ==> table.RowOf(drive) == mid)
        && (ok && owner != "" ==>
              (Abs(table.RowOf(drive)), Said(true)) == MemStep(Abs(mid), Acquire(owner, seconds), now))
    {
      var leaseUntil := now + seconds;
      var entity := table.RowOf(drive);
      table.OthersWrite(drive, others);
      if entity.None? {
        ok := table.CreateEntity(drive, Row(None, Present(owner), Some(leaseUntil), None, 0));
        return;
      }
      var row := entity.value;
      if row.until.Some? && row.until.value > now && row.owner != Present(owner) {
        return false;
      }
      row := row.(owner := Present(owner), until := Some(leaseUntil), committedBy := None);
      ok := table.UpdateEntity(drive, row, entity.value.etag);
    }

    method RenewLease(drive: string, owner: string, seconds: nat, now: int, others: seq<Row<string, string>>)
      returns (ok: bool)
      requires table.Valid() && forall row | row in others :: WellFormed(Some(row))
      modifies table
      ensures table.Valid() && table.Others(drive, old(table.rows))
      ensures var entity := old(table.RowOf(drive));
        (table.RowOf(drive), ok)
        == Execute(Overwritten(entity, others, old(table.nextEtag)), entity,
                   PlanRenew(entity, Present(owner), seconds, now), old(table.nextEtag) + |others|)
      ensures var entity := old(table.RowOf(drive));
        var mid := Overwritten(entity, others, old(table.nextEtag));
        && (!ok ==> table.RowOf(drive) == mid)
        && (ok && owner != "" ==>
              (Abs(table.RowOf(drive)), Said(true)) == MemStep(Abs(mid), Renew(owner, seconds), now))
    {
      var entity := table.RowOf(drive);
      table.OthersWrite(drive, others);
      if entity.None? || entity.value.owner != Present(owner) {
        return false;
      }
      ok := table.UpdateEntity(drive, entity.value.(until := Some(now + seconds)), entity.value.etag);
    }

    method CommitLink(drive: string, link: string, owner: string, now: int, others: seq<Row<string, string>>)
      returns (ok: bool)
      requires table.Valid() && forall row | row in others :: WellFormed(Some(row))
      modifies table
      ensures table.Valid() && table.Others(drive, old(table.rows))
      ensures var entity := old(table.RowOf(drive));
        (table.RowOf(drive), ok)
        == Execute(Overwritten(entity, others, old(table.nextEtag)), entity,
                   PlanCommit(entity, Present(link), Present(owner), now), old(table.nextEtag) + |others|)
      ensures var entity := old(table.RowOf(drive));
        var mid := Overwritten(entity, others, old(table.nextEtag));
        && (!ok ==> table.RowOf(drive) == mid)
        && (ok && link != "" && owner != "" ==>
              || (Abs(table.RowOf(drive)), Said(true)) == MemStep(Abs(mid), Commit(link, owner), now)
              || (table.RowOf(drive) == mid && (Abs(entity), Said(true)) ==
                MemStep(Abs(entity), Commit(link, owner), now)))
    {
      var entity := table.RowOf(drive);
      table.OthersWrite(drive, others);
      if entity.None? {
        return false;
      }
      var row := entity.value;
      if row.link == Present(link) && row.committedBy == Present(owner) {
        return true;
      }
      if row.owner != Present(owner) {
        return false;
      }
      row := row.(link := Present(link), owner := None, until := Some(now), committedBy := Present(owner));
      ok := table.UpdateEntity(drive, row, entity.value.etag);
    }

    method ReleaseLease(drive: string, owner: string, now: int, others: seq<Row<string, string>>)
      requires table.Valid() && forall row | row in others :: WellFormed(Some(row))
      modifies table
      ensures table.Valid() && table.Others(drive, old(table.rows))
      ensures var entity := old(table.RowOf(drive));
        table.RowOf(drive)
        == Execute(Overwritten(entity, others, old(table.nextEtag)), entity,
                   PlanRelease(entity, Present(owner), now), old(table.nextEtag) + |others|).0
      ensures var mid := Overwritten(old(table.RowOf(drive)), others, old(table.nextEtag));
        table.RowOf(drive) == mid || Abs(table.RowOf(drive)) == MemStep(Abs(mid), Release(owner), now).0
    {
      var entity := table.RowOf(drive);
      table.OthersWrite(drive, others);
      if entity.None? || entity.value.owner != Present(owner) {
        return;
      }
      var _ := table.UpdateEntity(drive, entity.value.(owner := None, until := Some(now)), entity.value.etag);
    }
  }
}
