/**
 Tenant scoping of database queries (src/prisma/prisma.service.ts, src/prisma/tenant-models.ts,
 src/common/context/tenant.context.ts).

 A model's table holds the rows of all organizations. The hook rewrites a query's
 arguments so that, run on the whole table, it means what the original means on one
 organization's slice. Row-level security is taken as the policies state it: a row is
 visible or writable if and only if its organization equals the setting, or bypass is on.
 */
module Tenancy {
  import opened Options

  type Id = nat

  datatype Columns = Columns(key: nat, data: int)
  datatype Row = Row(org: Id, cols: Columns)
  type Table = map<Id, Row>

  /** A model's unique column: unique within an organization, or over all of them. */
  datatype Scheme = PerTenant | Global

  /** `org` is the filter's organizationId, `rest` everything else it asks. */
  datatype Where = Where(org: Option<Id>, rest: (Id, Columns) -> bool)
  datatype NewRow = NewRow(id: Id, org: Option<Id>, cols: Columns)
  datatype Data = One(row: NewRow) | Many(rows: seq<NewRow>)

  /** An arguments object; a field that is not there is None. `change` is the update payload. */
  datatype Args = Args(where_: Option<Where>, data: Option<Data>, create: Option<NewRow>, change: Columns -> Columns)

  datatype Operation =
    | FindUnique | FindUniqueOrThrow | FindFirst | FindFirstOrThrow | FindMany | Count | Aggregate | GroupBy
    | Update | UpdateMany | Delete | DeleteMany
    | Create | CreateMany | CreateManyAndReturn
    | Upsert
    | UpdateManyAndReturn

  predicate WhereScoped(op: Operation) {
    op in {FindUnique, FindUniqueOrThrow, FindFirst, FindFirstOrThrow, FindMany, Count, Aggregate, GroupBy,
           Update, UpdateMany, Delete, DeleteMany}
  }

  predicate DataScoped(op: Operation) {
    op in {Create, CreateMany, CreateManyAndReturn}
  }

  // ----- What an operation means on a table -----

  /** Reads answer with the matched rows, of which counts, aggregates and orderings are functions. */
  datatype Answer = Found(rows: Table) | Changed(rows: Table) | NotFound | Violation

  function Anything(): (Id, Columns) -> bool {
    (id: Id, c: Columns) => true
  }

  function WhereOf(a: Option<Args>): Where {
    if a.Some? && a.value.where_.Some? then a.value.where_.value else Where(None, Anything())
  }

  function Matched(w: Where, table: Table): Table {
    map id | id in table && (w.org.Some? ==> w.org.value == table[id].org) && w.rest(id, table[id].cols) :: table[id]
  }

  function Changing(a: Option<Args>, table: Table): Table {
    map id | id in table :: Row(table[id].org, if a.Some? then a.value.change(table[id].cols) else table[id].cols)
  }

  function RowsOf(a: Option<Args>): seq<NewRow> {
    if a.Some? && a.value.data.Some? then
      (match a.value.data.value
       case One(r) => [r]
       case Many(rs) => rs)
    else []
  }

  predicate KeyTaken(scheme: Scheme, table: Table, org: Id, key: nat) {
    exists id :: id in table && table[id].cols.key == key && (scheme.PerTenant? ==> table[id].org == org)
  }

  /** One insertion; `implied` is the organization of a row that names none, if there is one. */
  function InsertOne(scheme: Scheme, table: Table, r: NewRow, implied: Option<Id>): Option<Table> {
    var org := if r.org.Some? then r.org else implied;
    if org.None? || r.id in table || KeyTaken(scheme, table, org.value, r.cols.key) then None
    else Some(table[r.id := Row(org.value, r.cols)])
  }

  function InsertAll(scheme: Scheme, table: Table, rows: seq<NewRow>, implied: Option<Id>): Option<Table> {
    if |rows| == 0 then Some(table)
    else
      match InsertAll(scheme, table, rows[..|rows| - 1], implied)
      case None => None
      case Some(t) => InsertOne(scheme, t, rows[|rows| - 1], implied)
  }

  function Inserted(table: Table, t: Option<Table>): (Table, Answer) {
    if t.None? then (table, Violation) else (t.value, Changed(t.value - table.Keys))
  }

  function Exec(scheme: Scheme, op: Operation, a: Option<Args>, table: Table, implied: Option<Id>): (Table, Answer) {
    var matched := Matched(WhereOf(a), table);
    match op
    case FindUnique => (table, Found(matched))
    case FindFirst => (table, Found(matched))
    case FindMany => (table, Found(matched))
    case Count => (table, Found(matched))
    case Aggregate => (table, Found(matched))
    case GroupBy => (table, Found(matched))
    case FindUniqueOrThrow => (table, if matched == map[] then NotFound else Found(matched))
    case FindFirstOrThrow => (table, if matched == map[] then NotFound else Found(matched))
    case UpdateMany => (table + Changing(a, matched), Changed(Changing(a, matched)))
    case UpdateManyAndReturn => (table + Changing(a, matched), Changed(Changing(a, matched)))
    case Update => if matched == map[] then (table, NotFound) else (table + Changing(a, matched), Changed(Changing(a, matched)))
    case DeleteMany => (table - matched.Keys, Changed(matched))
    case Delete => if matched == map[] then (table, NotFound) else (table - matched.Keys, Changed(matched))
    case Create => Inserted(table, InsertAll(scheme, table, RowsOf(a), implied))
    case CreateMany => Inserted(table, InsertAll(scheme, table, RowsOf(a), implied))
    case CreateManyAndReturn => Inserted(table, InsertAll(scheme, table, RowsOf(a), implied))
    case Upsert =>
      if matched != map[] then (table + Changing(a, matched), Changed(Changing(a, matched)))
      else if a.Some? && a.value.create.Some? then Inserted(table, InsertOne(scheme, table, a.value.create.value, implied))
      else (table, Violation)
  }

  /** The row meets the filter; no filter is met by every row. */
  predicate Hit(a: Option<Args>, id: Id, r: Row) {
    a.None? || a.value.where_.None?
    || var w := a.value.where_.value; (w.org.None? || w.org.value == r.org) && w.rest(id, r.cols)
  }

  predicate HitsNone(a: Option<Args>, table: Table) {
    forall id :: id in table ==> !Hit(a, id, table[id])
  }

  lemma MatchedHits(a: Option<Args>, table: Table)
    ensures forall id :: id in Matched(WhereOf(a), table) <==> id in table && Hit(a, id, table[id])
    ensures Matched(WhereOf(a), table) == map[] <==> HitsNone(a, table)
  {
    if HitsNone(a, table) {
      assert Matched(WhereOf(a), table) == map[];
    } else {
      var id :| id in table && Hit(a, id, table[id]);
      assert id in Matched(WhereOf(a), table);
    }
  }

  /** Row by row: a read finds exactly the rows that meet its filter, and throws only where it is named to and none does. */
  lemma ReadsMean(scheme: Scheme, op: Operation, a: Option<Args>, table: Table, implied: Option<Id>, id: Id)
    requires op in {FindUnique, FindUniqueOrThrow, FindFirst, FindFirstOrThrow, FindMany, Count, Aggregate, GroupBy}
    ensures var (after, answer) := Exec(scheme, op, a, table, implied);
            after == table
            && (answer == NotFound <==> op in {FindUniqueOrThrow, FindFirstOrThrow} && HitsNone(a, table))
            && (answer != NotFound ==> answer.Found? && (id in answer.rows <==> id in table && Hit(a, id, table[id])))
            && (answer.Found? && id in answer.rows ==> answer.rows[id] == table[id])
  {
    MatchedHits(a, table);
  }

  /** An update or deletion changes exactly those rows, and throws only for a single one that is not there. */
  lemma WritesMean(scheme: Scheme, op: Operation, a: Option<Args>, table: Table, implied: Option<Id>, id: Id)
    requires op in {Update, UpdateMany, UpdateManyAndReturn, Delete, DeleteMany}
    ensures var (after, answer) := Exec(scheme, op, a, table, implied);
            (answer == NotFound <==> op in {Update, Delete} && HitsNone(a, table))
            && (id in after <==> id in table && !(op in {Delete, DeleteMany} && Hit(a, id, table[id])))
            && (id in after ==>
                  after[id] == if a.Some? && Hit(a, id, table[id]) then Row(table[id].org, a.value.change(table[id].cols)) else table[id])
  {
    MatchedHits(a, table);
  }

  /** An upsert updates the rows that meet its filter, or inserts its row when none does. */
  lemma UpsertMeans(scheme: Scheme, a: Args, table: Table, implied: Option<Id>, id: Id)
    ensures var after := Exec(scheme, Upsert, Some(a), table, implied).0;
            (!HitsNone(Some(a), table) ==>
               && (id in after <==> id in table)
               && (id in after ==>
                     after[id] == if Hit(Some(a), id, table[id]) then Row(table[id].org, a.change(table[id].cols)) else table[id]))
            && (HitsNone(Some(a), table) ==>
                  after == if a.create.Some? && InsertOne(scheme, table, a.create.value, implied).Some?
                           then InsertOne(scheme, table, a.create.value, implied).value else table)
  {
    MatchedHits(Some(a), table);
  }

  // ----- The rewriting -----

  function ScopeWhere(w: Option<Where>, t: Id): Option<Where> {
    if w.None? then Some(Where(Some(t), Anything()))
    else if w.value.org.None? then Some(w.value.(org := Some(t)))
    else w
  }

  function Stamp(r: NewRow, t: Id): NewRow {
    if r.org.None? then r.(org := Some(t)) else r
  }

  function StampAll(rows: seq<NewRow>, t: Id): (r: seq<NewRow>)
    ensures |r| == |rows|
  {
    seq(|rows|, i requires 0 <= i < |rows| => Stamp(rows[i], t))
  }

  function StampData(d: Option<Data>, t: Id): Option<Data> {
    if d.None? then None
    else
      match d.value
      case One(r) => Some(One(Stamp(r, t)))
      case Many(rs) => Some(Many(StampAll(rs, t)))
  }

  function Rewrite(op: Operation, a: Args, t: Id): Args {
    if WhereScoped(op) then a.(where_ := ScopeWhere(a.where_, t))
    else if DataScoped(op) then a.(data := StampData(a.data, t))
    else if op == Upsert then
      a.(where_ := ScopeWhere(a.where_, t), create := if a.create.Some? then Some(Stamp(a.create.value, t)) else None)
    else a
  }

  // ----- It means the original on the tenant's slice -----

  function Slice(table: Table, t: Id): Table {
    map id | id in table && table[id].org == t :: table[id]
  }

  function Others(table: Table, t: Id): Table {
    map id | id in table && table[id].org != t :: table[id]
  }

  /** No explicit organization anywhere in the arguments. */
  predicate Unnamed(a: Args) {
    (a.where_.Some? ==> a.where_.value.org.None?)
    && (forall i :: 0 <= i < |RowsOf(Some(a))| ==> RowsOf(Some(a))[i].org.None?)
    && (a.create.Some? ==> a.create.value.org.None?)
  }

  predicate HeldElsewhere(table: Table, t: Id, r: NewRow) {
    r.id in Others(table, t) || exists id :: id in Others(table, t) && table[id].cols.key == r.cols.key
  }

  /** New ids are new to the whole table; a globally unique value is not held by another organization. */
  predicate Clear(scheme: Scheme, table: Table, t: Id, r: NewRow) {
    r.id !in Others(table, t) && (scheme.Global? ==> !HeldElsewhere(table, t, r))
  }

  predicate AllClear(scheme: Scheme, table: Table, t: Id, rows: seq<NewRow>) {
    forall i :: 0 <= i < |rows| ==> Clear(scheme, table, t, rows[i])
  }

  lemma MatchedScoped(w: Where, table: Table, t: Id)
    requires w.org.None?
    ensures Matched(w.(org := Some(t)), table) == Matched(w, Slice(table, t))
    ensures Matched(w, Slice(table, t)).Keys <= Slice(table, t).Keys
  {}

  lemma ChangedSlice(table: Table, t: Id, change: Table)
    requires change.Keys <= Slice(table, t).Keys && forall id :: id in change ==> change[id].org == t
    ensures Slice(table + change, t) == Slice(table, t) + change
    ensures Others(table + change, t) == Others(table, t)
  {}

  lemma DeletedSlice(table: Table, t: Id, gone: set<Id>)
    requires gone <= Slice(table, t).Keys
    ensures Slice(table - gone, t) == Slice(table, t) - gone
    ensures Others(table - gone, t) == Others(table, t)
  {}

  /** One stamped insertion into the whole table is the plain insertion into the slice, unless another organization holds what it brings. */
  lemma InsertOneSliced(scheme: Scheme, table: Table, t: Id, r: NewRow)
    requires r.org.None?
    ensures var whole, slice := InsertOne(scheme, table, Stamp(r, t), None), InsertOne(scheme, Slice(table, t), r, Some(t));
            (whole.Some? <==> slice.Some? && Clear(scheme, table, t, r))
            && (whole.Some? ==> Slice(whole.value, t) == slice.value && Others(whole.value, t) == Others(table, t)
                                && whole.value == table[r.id := Row(t, r.cols)])
  {
    if Clear(scheme, table, t, r) {
      KeyTakenSliced(scheme, table, t, r);
    } else if r.id !in Others(table, t) {
      var id :| id in Others(table, t) && table[id].cols.key == r.cols.key;
      assert id in table;
      assert KeyTaken(scheme, table, t, r.cols.key);
    }
  }

  lemma KeyTakenSliced(scheme: Scheme, table: Table, t: Id, r: NewRow)
    requires Clear(scheme, table, t, r)
    ensures KeyTaken(scheme, table, t, r.cols.key) <==> KeyTaken(scheme, Slice(table, t), t, r.cols.key)
  {
    if KeyTaken(scheme, table, t, r.cols.key) {
      var id :| id in table && table[id].cols.key == r.cols.key && (scheme.PerTenant? ==> table[id].org == t);
      assert table[id].org != t ==> id in Others(table, t) && HeldElsewhere(table, t, r);
      assert id in Slice(table, t) && Slice(table, t)[id] == table[id];
    }
    if KeyTaken(scheme, Slice(table, t), t, r.cols.key) {
      var id :| id in Slice(table, t) && Slice(table, t)[id].cols.key == r.cols.key;
      assert id in table && table[id].cols.key == r.cols.key && table[id].org == t;
    }
  }

  /** The insertions all go through exactly if they do on the slice and each brings nothing held elsewhere. */
  lemma {:induction false} InsertAllSliced(scheme: Scheme, table: Table, t: Id, rows: seq<NewRow>)
    requires forall i :: 0 <= i < |rows| ==> rows[i].org.None?
    ensures var whole, slice := InsertAll(scheme, table, StampAll(rows, t), None), InsertAll(scheme, Slice(table, t), rows, Some(t));
            (whole.Some? <==> slice.Some? && AllClear(scheme, table, t, rows))
            && (whole.Some? ==> Slice(whole.value, t) == slice.value && Others(whole.value, t) == Others(table, t)
                                && whole.value.Keys >= table.Keys)
  {
    if |rows| > 0 {
      var n := |rows| - 1;
      InsertAllSliced(scheme, table, t, rows[..n]);
      assert StampAll(rows, t)[..n] == StampAll(rows[..n], t);
      AllClearNext(scheme, table, t, rows);
      var mid := InsertAll(scheme, table, StampAll(rows[..n], t), None);
      if mid.Some? {
        ClearIff(scheme, table, mid.value, t, rows[n]);
        InsertOneSliced(scheme, mid.value, t, rows[n]);
      }
    }
  }

  lemma AllClearNext(scheme: Scheme, table: Table, t: Id, rows: seq<NewRow>)
    requires |rows| > 0
    ensures var n := |rows| - 1;
            AllClear(scheme, table, t, rows) <==> AllClear(scheme, table, t, rows[..n]) && Clear(scheme, table, t, rows[n])
  {
    var n := |rows| - 1;
    if AllClear(scheme, table, t, rows[..n]) && Clear(scheme, table, t, rows[n]) {
      forall i | 0 <= i < |rows| ensures Clear(scheme, table, t, rows[i]) {
        assert i < n ==> rows[..n][i] == rows[i];
      }
    }
  }

  lemma ClearIff(scheme: Scheme, table: Table, after: Table, t: Id, r: NewRow)
    requires Others(after, t) == Others(table, t)
    ensures Clear(scheme, after, t, r) <==> Clear(scheme, table, t, r)
  {
    if Clear(scheme, table, t, r) {
      StillClear(scheme, table, after, t, r);
    }
    if Clear(scheme, after, t, r) {
      StillClear(scheme, after, table, t, r);
    }
  }

  lemma StillClear(scheme: Scheme, table: Table, after: Table, t: Id, r: NewRow)
    requires Clear(scheme, table, t, r) && Others(after, t) == Others(table, t)
    ensures Clear(scheme, after, t, r)
  {
    if HeldElsewhere(after, t, r) && r.id !in Others(after, t) {
      var id :| id in Others(after, t) && after[id].cols.key == r.cols.key;
      assert id in Others(table, t) && Others(table, t)[id] == Others(after, t)[id];
    }
  }

  lemma NewOnesSliced(table: Table, after: Table, t: Id)
    requires Others(after, t) == Others(table, t) && after.Keys >= table.Keys
    ensures after - table.Keys == Slice(after, t) - Slice(table, t).Keys
  {
    forall id | id in after
      ensures id in table.Keys <==> id in Slice(table, t).Keys || after[id].org != t
    {
      if after[id].org != t {
        assert id in Others(after, t);
        assert id in Others(table, t);
      } else if id in table {
        assert id !in Others(after, t);
        assert id !in Others(table, t);
      }
    }
  }

  /** The whole-table run of the rewritten arguments is the slice's run of the original ones. */
  predicate RunsOnSlice(scheme: Scheme, op: Operation, a: Args, table: Table, t: Id) {
    var whole := Exec(scheme, op, Some(Rewrite(op, a, t)), table, None);
    var slice := Exec(scheme, op, Some(a), Slice(table, t), Some(t));
    whole.1 == slice.1 && Slice(whole.0, t) == slice.0 && Others(whole.0, t) == Others(table, t)
  }

  lemma WhereSliced(op: Operation, a: Args, table: Table, t: Id)
    requires Unnamed(a) && (WhereScoped(op) || op == Upsert)
    ensures Matched(WhereOf(Some(Rewrite(op, a, t))), table) == Matched(WhereOf(Some(a)), Slice(table, t))
    ensures Changing(Some(Rewrite(op, a, t)), Matched(WhereOf(Some(a)), Slice(table, t)))
         == Changing(Some(a), Matched(WhereOf(Some(a)), Slice(table, t)))
  {
    MatchedScoped(WhereOf(Some(a)), table, t);
  }

  lemma ReadRuns(scheme: Scheme, op: Operation, a: Args, table: Table, t: Id)
    requires Unnamed(a) && WhereScoped(op) && !(op in {Update, UpdateMany, Delete, DeleteMany})
    ensures RunsOnSlice(scheme, op, a, table, t)
  {
    WhereSliced(op, a, table, t);
  }

  lemma UpdateRuns(scheme: Scheme, op: Operation, a: Args, table: Table, t: Id)
    requires Unnamed(a) && op in {Update, UpdateMany}
    ensures RunsOnSlice(scheme, op, a, table, t)
  {
    WhereSliced(op, a, table, t);
    MatchedScoped(WhereOf(Some(a)), table, t);
    ChangedSlice(table, t, Changing(Some(a), Matched(WhereOf(Some(a)), Slice(table, t))));
  }

  lemma DeleteRuns(scheme: Scheme, op: Operation, a: Args, table: Table, t: Id)
    requires Unnamed(a) && op in {Delete, DeleteMany}
    ensures RunsOnSlice(scheme, op, a, table, t)
  {
    WhereSliced(op, a, table, t);
    MatchedScoped(WhereOf(Some(a)), table, t);
    DeletedSlice(table, t, Matched(WhereOf(Some(a)), Slice(table, t)).Keys);
  }

  lemma WhereScopedRuns(scheme: Scheme, op: Operation, a: Args, table: Table, t: Id)
    requires Unnamed(a) && WhereScoped(op)
    ensures RunsOnSlice(scheme, op, a, table, t)
  {
    if op in {Update, UpdateMany} {
      UpdateRuns(scheme, op, a, table, t);
    } else if op in {Delete, DeleteMany} {
      DeleteRuns(scheme, op, a, table, t);
    } else {
      ReadRuns(scheme, op, a, table, t);
    }
  }

  /** Creations run as on the slice if they would fail there, or if no other organization holds what they bring; and only then. */
  lemma DataScopedRuns(scheme: Scheme, op: Operation, a: Args, table: Table, t: Id)
    requires Unnamed(a) && DataScoped(op)
    ensures RunsOnSlice(scheme, op, a, table, t)
       <==> InsertAll(scheme, Slice(table, t), RowsOf(Some(a)), Some(t)).None? || AllClear(scheme, table, t, RowsOf(Some(a)))
  {
    var rows := RowsOf(Some(a));
    InsertAllSliced(scheme, table, t, rows);
    StampedRows(op, a, t);
    var whole := InsertAll(scheme, table, StampAll(rows, t), None);
    if whole.Some? {
      NewOnesSliced(table, whole.value, t);
    }
  }

  lemma StampedRows(op: Operation, a: Args, t: Id)
    requires Unnamed(a) && DataScoped(op)
    ensures RowsOf(Some(Rewrite(op, a, t))) == StampAll(RowsOf(Some(a)), t)
  {}

  /** Upserts likewise, when they come to create. */
  lemma UpsertRuns(scheme: Scheme, a: Args, table: Table, t: Id)
    requires Unnamed(a)
    ensures RunsOnSlice(scheme, Upsert, a, table, t) <==> UpsertClear(scheme, a, table, t)
  {
    WhereSliced(Upsert, a, table, t);
    MatchedScoped(WhereOf(Some(a)), table, t);
    var matched := Matched(WhereOf(Some(a)), Slice(table, t));
    ChangedSlice(table, t, Changing(Some(a), matched));
    if matched == map[] && a.create.Some? {
      UpsertCreates(scheme, a, table, t);
    }
  }

  predicate UpsertClear(scheme: Scheme, a: Args, table: Table, t: Id) {
    Matched(WhereOf(Some(a)), Slice(table, t)) != map[] || a.create.None?
    || InsertOne(scheme, Slice(table, t), a.create.value, Some(t)).None? || Clear(scheme, table, t, a.create.value)
  }

  lemma UpsertCreates(scheme: Scheme, a: Args, table: Table, t: Id)
    requires Unnamed(a) && a.create.Some? && Matched(WhereOf(Some(a)), Slice(table, t)) == map[]
    ensures RunsOnSlice(scheme, Upsert, a, table, t)
       <==> InsertOne(scheme, Slice(table, t), a.create.value, Some(t)).None? || Clear(scheme, table, t, a.create.value)
  {
    WhereSliced(Upsert, a, table, t);
    var r := a.create.value;
    InsertOneSliced(scheme, table, t, r);
    var whole := InsertOne(scheme, table, Stamp(r, t), None);
    if whole.Some? {
      NewOnesSliced(table, whole.value, t);
    }
  }

  /** updateManyAndReturn is in neither list, so nothing is rewritten: it runs as on the slice exactly if it matches nobody else's rows. */
  lemma UpdateReturnsRuns(scheme: Scheme, a: Args, table: Table, t: Id)
    requires Unnamed(a)
    ensures RunsOnSlice(scheme, UpdateManyAndReturn, a, table, t) <==> Matched(WhereOf(Some(a)), Others(table, t)) == map[]
    ensures Exec(scheme, UpdateManyAndReturn, Issued(UpdateManyAndReturn, Some(a), t), table, None).1
         == Exec(scheme, UpdateManyAndReturn, Some(a), Slice(table, t), Some(t)).1
       <==> Matched(WhereOf(Some(a)), Others(table, t)) == map[]
  {
    var w := WhereOf(Some(a));
    var mine, theirs := Matched(w, Slice(table, t)), Matched(w, Others(table, t));
    MatchedSplit(w, table, t);
    MatchedScoped(w, table, t);
    ChangedSlice(table, t, Changing(Some(a), mine));
    if theirs == map[] {
      assert Matched(w, table) == mine;
    } else {
      var id :| id in theirs;
      assert id in Changing(Some(a), Matched(w, table)) && id !in Changing(Some(a), mine);
    }
  }

  lemma MatchedSplit(w: Where, table: Table, t: Id)
    ensures Matched(w, table) == Matched(w, Slice(table, t)) + Matched(w, Others(table, t))
    ensures Matched(w, Slice(table, t)).Keys !! Matched(w, Others(table, t)).Keys
  {}

  /** What a caller could check beforehand: nothing of other organizations stands in the call's way. */
  predicate Undisturbed(scheme: Scheme, op: Operation, a: Args, table: Table, t: Id) {
    if DataScoped(op) then
      InsertAll(scheme, Slice(table, t), RowsOf(Some(a)), Some(t)).None? || AllClear(scheme, table, t, RowsOf(Some(a)))
    else if op == Upsert then UpsertClear(scheme, a, table, t)
    else op != UpdateManyAndReturn || Matched(WhereOf(Some(a)), Others(table, t)) == map[]
  }

  /**
   With an arguments object that names no organization, an operation on the whole table
   gives the result of the original on the tenant's slice and leaves the rows of all other
   organizations as they were, if and only if nothing of theirs stands in its way: always,
   but for creations of values they hold and for updateManyAndReturn.
   */
  lemma RewritingPreservesMeaning(scheme: Scheme, op: Operation, a: Args, table: Table, t: Id)
    requires Unnamed(a)
    ensures RunsOnSlice(scheme, op, a, table, t) <==> Undisturbed(scheme, op, a, table, t)
  {
    if WhereScoped(op) {
      WhereScopedRuns(scheme, op, a, table, t);
    } else if DataScoped(op) {
      DataScopedRuns(scheme, op, a, table, t);
    } else if op == Upsert {
      UpsertRuns(scheme, a, table, t);
    } else {
      UpdateReturnsRuns(scheme, a, table, t);
    }
  }

  /** A value unique over all organizations shows through: creation runs on the slice exactly when no other organization holds it. */
  lemma CreateExact(scheme: Scheme, a: Args, r: NewRow, table: Table, t: Id)
    requires Unnamed(a) && a.data == Some(One(r)) && r.id !in table && !KeyTaken(scheme, Slice(table, t), t, r.cols.key)
    ensures RunsOnSlice(scheme, Create, a, table, t) <==> !(scheme.Global? && HeldElsewhere(table, t, r))
  {
    assert RowsOf(Some(a)) == [r] && RowsOf(Some(a))[..0] == [];
    DataScopedRuns(scheme, Create, a, table, t);
    AllClearNext(scheme, table, t, [r]);
    assert InsertAll(scheme, Slice(table, t), [r], Some(t)) == InsertOne(scheme, Slice(table, t), r, Some(t));
  }

  // ----- Without an arguments object -----

  /** The hook rewrites a stand-in object and then issues the query with the original arguments. */
  function Issued(op: Operation, a: Option<Args>, t: Id): Option<Args> {
    if a.Some? then Some(Rewrite(op, a.value, t)) else None
  }

  /** Called without arguments, a read or deleteMany reaches other organizations unless there are none. */
  lemma ScopedIffArguments(scheme: Scheme, op: Operation, table: Table, t: Id)
    requires op in {FindMany, Count, Aggregate, GroupBy, DeleteMany}
    ensures Exec(scheme, op, Issued(op, None, t), table, None).1 == Exec(scheme, op, None, Slice(table, t), Some(t)).1
       <==> Others(table, t) == map[]
  {
    assert Matched(WhereOf(None), table) == table;
    assert Matched(WhereOf(None), Slice(table, t)) == Slice(table, t);
    if Others(table, t) == map[] {
      forall id | id in table ensures table[id].org == t {
        assert table[id].org != t ==> id in Others(table, t);
      }
      assert Slice(table, t) == table;
    } else {
      var id :| id in Others(table, t);
      assert id in table && id !in Slice(table, t);
    }
  }

  // ----- Row-level security -----

  datatype Setting = Setting(org: Option<Id>, bypass: bool)

  const UNSET := Setting(None, false)

  predicate Allowed(g: Setting, org: Id) {
    g.bypass || g.org == Some(org)
  }

  function Visible(g: Setting, table: Table): Table {
    map id | id in table && Allowed(g, table[id].org) :: table[id]
  }

  /** Statements see visible rows only, and may write none that would not be. */
  function ExecRls(scheme: Scheme, g: Setting, op: Operation, a: Option<Args>, table: Table): (Table, Answer) {
    var matched := Matched(WhereOf(a), Visible(g, table));
    if DataScoped(op) then
      if forall i :: 0 <= i < |RowsOf(a)| ==> RowsOf(a)[i].org.Some? && Allowed(g, RowsOf(a)[i].org.value)
      then Exec(scheme, op, a, table, None) else (table, Violation)
    else if op == Upsert && matched == map[] then
      if a.Some? && a.value.create.Some? && a.value.create.value.org.Some? && Allowed(g, a.value.create.value.org.value)
      then Inserted(table, InsertOne(scheme, table, a.value.create.value, None)) else (table, Violation)
    else
      var seen := Exec(scheme, op, a, Visible(g, table), None);
      ((table - Visible(g, table).Keys) + seen.0, seen.1)
  }

  lemma VisibleIsSlice(table: Table, t: Id)
    ensures Visible(Setting(Some(t), false), table) == Slice(table, t)
    ensures table - Slice(table, t).Keys == Others(table, t)
  {
    assert forall id :: id in table ==> (id in Others(table, t) <==> id !in Slice(table, t));
  }

  /** Under the tenant's setting, reads and deleteMany without arguments see the slice and nothing else after all. */
  lemma PolicyCoversMissingArguments(scheme: Scheme, op: Operation, table: Table, t: Id)
    requires op in {FindMany, Count, Aggregate, GroupBy, DeleteMany, UpdateManyAndReturn}
    ensures var run := ExecRls(scheme, Setting(Some(t), false), op, Issued(op, None, t), table);
            var slice := Exec(scheme, op, None, Slice(table, t), Some(t));
            run.1 == slice.1 && Others(run.0, t) == Others(table, t)
  {
    VisibleIsSlice(table, t);
    MatchesAll(Slice(table, t));
    var seen := Exec(scheme, op, None, Slice(table, t), None);
    BareRun(scheme, op, Slice(table, t));
    OthersUnder(table, t, seen.0);
  }

  lemma MatchesAll(table: Table)
    ensures Matched(WhereOf(None), table) == table
  {}

  lemma BareRun(scheme: Scheme, op: Operation, table: Table)
    requires op in {FindMany, Count, Aggregate, GroupBy, DeleteMany, UpdateManyAndReturn}
    ensures var seen := Exec(scheme, op, None, table, None).0;
            forall id :: id in seen ==> id in table && seen[id] == table[id]
  {
    MatchesAll(table);
  }

  lemma OthersUnder(table: Table, t: Id, seen: Table)
    requires forall id :: id in seen ==> id in Slice(table, t) && seen[id] == Slice(table, t)[id]
    ensures Others((table - Slice(table, t).Keys) + seen, t) == Others(table, t)
  {}

  predicate Nothing(r: Answer) {
    r == Violation || r == NotFound || r == Found(map[]) || r == Changed(map[])
  }

  /** A statement that names another organization, in its filter or in a row to create, finds and writes nothing there. */
  lemma OtherTenantUnauthorized(scheme: Scheme, op: Operation, a: Args, table: Table, t: Id, other: Id)
    requires other != t
    requires DataScoped(op) ==> exists i :: 0 <= i < |RowsOf(Some(a))| && RowsOf(Some(a))[i].org == Some(other)
    requires !DataScoped(op) ==> a.where_.Some? && a.where_.value.org == Some(other)
    requires op == Upsert && a.create.Some? ==> a.create.value.org == Some(other)
    ensures var run := ExecRls(scheme, Setting(Some(t), false), op, Some(Rewrite(op, a, t)), table);
            run.0 == table && Nothing(run.1)
  {
    if DataScoped(op) {
      var i :| 0 <= i < |RowsOf(Some(a))| && RowsOf(Some(a))[i].org == Some(other);
      NamedRowStays(op, a, t, i);
    } else {
      NothingMatches(scheme, op, Rewrite(op, a, t), table, t, other);
    }
  }

  lemma NothingDone(scheme: Scheme, op: Operation, b: Args, slice: Table)
    requires !DataScoped(op) && op != Upsert && Matched(WhereOf(Some(b)), slice) == map[]
    ensures Exec(scheme, op, Some(b), slice, None).0 == slice
    ensures Nothing(Exec(scheme, op, Some(b), slice, None).1)
  {
    assert Changing(Some(b), map[]) == map[];
    assert slice + map[] == slice && slice - {} == slice;
  }

  lemma NothingMatches(scheme: Scheme, op: Operation, b: Args, table: Table, t: Id, other: Id)
    requires other != t && !DataScoped(op) && b.where_.Some? && b.where_.value.org == Some(other)
    requires op == Upsert && b.create.Some? ==> b.create.value.org == Some(other)
    ensures var run := ExecRls(scheme, Setting(Some(t), false), op, Some(b), table);
            run.0 == table && Nothing(run.1)
  {
    VisibleIsSlice(table, t);
    var slice := Slice(table, t);
    assert Matched(WhereOf(Some(b)), slice) == map[];
    if op != Upsert {
      NothingDone(scheme, op, b, slice);
      assert (table - slice.Keys) + slice == table;
    }
  }

  lemma NamedRowStays(op: Operation, a: Args, t: Id, i: nat)
    requires DataScoped(op) && i < |RowsOf(Some(a))| && RowsOf(Some(a))[i].org.Some?
    ensures i < |RowsOf(Some(Rewrite(op, a, t)))| && RowsOf(Some(Rewrite(op, a, t)))[i] == RowsOf(Some(a))[i]
  {}

  /** With no setting published nothing is visible: an unscoped query fails closed. */
  lemma UnsetSeesNothing(scheme: Scheme, op: Operation, a: Option<Args>, table: Table)
    requires op in {FindUnique, FindFirst, FindMany, Count, Aggregate, GroupBy}
    ensures ExecRls(scheme, UNSET, op, a, table) == (table, Found(map[]))
  {
    assert Visible(UNSET, table) == map[];
    assert (table - Visible(UNSET, table).Keys) + map[] == table;
    assert Matched(WhereOf(a), map[]) == map[];
  }
}
