/**
 Importing master data from files: duplicate detection by identity strings, and the
 idempotency protocol (src/modules/imports/imports.service.ts).

 Rows are taken as parsed. Text folding, upper-casing, number parsing and printing, ids as
 text and the SKU formatter are parameters; what is assumed of them is stated where it is used.
 */
module Imports {
  import opened Options

  type Id = nat
  type Hash = nat
  type Client = nat

  datatype Resource =
    | Clients | Suppliers | Employees | Products | Supplies | ProductCategories | ExpenseCategories | TransactionCategories

  /** `makeSku` takes the category code, the product name and the sequence number. */
  datatype Lib = Lib(
    fold: string -> string, upper: string -> string, parse: string -> Option<real>, show: real -> string, uuid: Id -> string,
    makeSku: (string, string, nat) -> string)

  // ----- Text -----

  predicate Space(c: char) {
    c in {' ', '\t', '\n', '\r'}
  }

  function TrimStart(s: string): (r: string)
    ensures r == [] || !Space(r[0])
    ensures s == [] || Space(s[0]) || r == s
  {
    if s == [] then [] else if Space(s[0]) then TrimStart(s[1..]) else s
  }

  function TrimEnd(s: string): (r: string)
    ensures r == [] || !Space(r[|r| - 1])
    ensures r <= s
    ensures s == [] || Space(s[|s| - 1]) || r == s
  {
    if s == [] then [] else if Space(s[|s| - 1]) then TrimEnd(s[..|s| - 1]) else s
  }

  function Trim(s: string): string {
    TrimEnd(TrimStart(s))
  }

  lemma TrimTwice(s: string)
    ensures Trim(Trim(s)) == Trim(s)
  {
    var t := Trim(s);
    if t != [] {
      assert t[0] == TrimStart(s)[0];
      assert TrimStart(t) == t;
    }
  }

  /** A cell: nothing, a string, or another value by its printed form. */
  datatype Cell = Blank | Str(s: string) | Printed(s: string)

  function Shown(c: Cell): string {
    if c.Blank? then "" else c.s
  }

  function Text(c: Cell): string {
    Trim(Shown(c))
  }

  function Normalized(lib: Lib, s: string): string {
    lib.fold(Trim(s))
  }

  /** What the loop keeps of a cell: strings are trimmed, other values stay. */
  function Kept(c: Cell): Cell {
    if c.Str? then Str(Trim(c.s)) else c
  }

  // ----- Rows -----

  /** The columns identities are made of; `othersFine` says that the remaining column checks pass. */
  datatype FileRow = FileRow(
    name: Cell, taxId: Cell, phone: Cell, first: Cell, last: Cell, email: Cell, sku: Cell, categoryCode: Cell,
    unit: Cell, size: Cell, code: Cell, kind: Cell, othersFine: bool)

  datatype Prepared = Prepared(
    name: Cell, taxId: Cell, phone: Cell, first: Cell, last: Cell, email: Cell, sku: Cell,
    category: Option<Id>, categoryCode: string, unit: string, size: Option<real>, code: string, kind: string)

  datatype Stored = Stored(
    name: string, taxId: Option<string>, phone: string, first: string, last: string, email: Option<string>,
    sku: Option<string>, category: Option<Id>, unit: string, size: real, code: string, kind: string)

  const UNITS := {"GRAM", "MILLILITER", "UNIT"}
  const KINDS := {"INCOME", "EXPENSE"}

  predicate IsCode(s: string) {
    |s| == 3 && forall i :: 0 <= i < 3 ==> ('A' <= s[i] <= 'Z' || '0' <= s[i] <= '9')
  }

  /** Category codes, normalized, of one organization. */
  type Categories = map<string, (Id, string)>

  function CategoryOf(lib: Lib, known: Categories, c: Cell): Option<(Id, string)> {
    var key := Normalized(lib, Shown(c));
    if Text(c) != "" && key in known then Some(known[key]) else None
  }

  function PrepareRow(lib: Lib, known: Categories, row: FileRow): Prepared {
    var category := CategoryOf(lib, known, row.categoryCode);
    Prepared(Kept(row.name), Kept(row.taxId), Kept(row.phone), Kept(row.first), Kept(row.last), Kept(row.email), Kept(row.sku),
             if category.Some? then Some(category.value.0) else None,
             if category.Some? then category.value.1 else "GEN",
             lib.upper(Text(row.unit)), lib.parse(Shown(row.size)), lib.upper(Text(row.code)), lib.upper(Text(row.kind)))
  }

  /** The row has no error but a possible duplicate. */
  predicate RowOk(lib: Lib, known: Categories, res: Resource, row: FileRow) {
    row.othersFine
    && match res
       case Clients => Text(row.name) != "" && Text(row.phone) != ""
       case Suppliers => Text(row.taxId) != ""
       case Employees => Text(row.first) != "" && Text(row.last) != ""
       case Products => Text(row.name) != "" && (Text(row.categoryCode) != "" ==> CategoryOf(lib, known, row.categoryCode).Some?)
       case Supplies =>
         Text(row.name) != "" && lib.upper(Text(row.unit)) in UNITS
         && lib.parse(Shown(row.size)).Some? && lib.parse(Shown(row.size)).value >= 0.0001
       case ProductCategories => Text(row.name) != "" && IsCode(lib.upper(Text(row.code)))
       case ExpenseCategories => Text(row.name) != ""
       case TransactionCategories => Text(row.name) != "" && lib.upper(Text(row.kind)) in KINDS
  }

  function ShowId(lib: Lib, category: Option<Id>): string {
    if category.Some? then lib.uuid(category.value) else ""
  }

  function ShowSize(lib: Lib, size: Option<real>): string {
    if size.Some? then lib.show(size.value) else "null"
  }

  function Identity(lib: Lib, res: Resource, p: Prepared): string {
    match res
    case Clients =>
      if Text(p.taxId) != "" then "tax:" + Normalized(lib, Shown(p.taxId))
      else "name:" + Normalized(lib, Shown(p.name)) + "|phone:" + Normalized(lib, Shown(p.phone))
    case Suppliers => "tax:" + Normalized(lib, Shown(p.taxId))
    case Employees =>
      if Text(p.taxId) != "" then "tax:" + Normalized(lib, Shown(p.taxId))
      else "person:" + Normalized(lib, Shown(p.first) + " " + Shown(p.last)) + "|email:" + Normalized(lib, Shown(p.email))
    case Products =>
      if Text(p.sku) != "" then "sku:" + Normalized(lib, Shown(p.sku))
      else "product:" + Normalized(lib, Shown(p.name)) + "|category:" + ShowId(lib, p.category)
    case Supplies => "supply:" + Normalized(lib, Shown(p.name)) + "|unit:" + p.unit + "|size:" + ShowSize(lib, p.size)
    case ProductCategories => "code:" + Normalized(lib, p.code)
    case ExpenseCategories => "name:" + Normalized(lib, Shown(p.name))
    case TransactionCategories => "name:" + Normalized(lib, Shown(p.name)) + "|type:" + p.kind
  }

  function OrEmpty(s: Option<string>): string {
    if s.Some? then s.value else ""
  }

  predicate Given(s: Option<string>) {
    s.Some? && s.value != ""
  }

  /** The identity computed from a row of the table. */
  function StoredIdentity(lib: Lib, res: Resource, r: Stored): string {
    match res
    case Clients =>
      if Given(r.taxId) then "tax:" + Normalized(lib, r.taxId.value)
      else "name:" + Normalized(lib, r.name) + "|phone:" + Normalized(lib, r.phone)
    case Suppliers => "tax:" + Normalized(lib, OrEmpty(r.taxId))
    case Employees =>
      if Given(r.taxId) then "tax:" + Normalized(lib, r.taxId.value)
      else "person:" + Normalized(lib, r.first + " " + r.last) + "|email:" + Normalized(lib, OrEmpty(r.email))
    case Products =>
      if Given(r.sku) then "sku:" + Normalized(lib, r.sku.value)
      else "product:" + Normalized(lib, r.name) + "|category:" + ShowId(lib, r.category)
    case Supplies => "supply:" + Normalized(lib, r.name) + "|unit:" + r.unit + "|size:" + lib.show(r.size)
    case ProductCategories => "code:" + Normalized(lib, r.code)
    case ExpenseCategories => "name:" + Normalized(lib, r.name)
    case TransactionCategories => "name:" + Normalized(lib, r.name) + "|type:" + r.kind
  }

  // ----- Writing rows -----

  function OrNull(s: string): Option<string> {
    if s == "" then None else Some(s)
  }

  /** A DECIMAL(12, 4) column: four decimals, halves away from zero. */
  function Round4(x: real): real {
    ((x * 10000.0 + 0.5).Floor as real) / 10000.0
  }

  function Store(lib: Lib, res: Resource, p: Prepared, sku: string): Stored {
    Stored(Text(p.name), if res == Suppliers then Some(Text(p.taxId)) else OrNull(Text(p.taxId)), Text(p.phone),
           Text(p.first), Text(p.last), OrNull(Text(p.email)), if res == Products then Some(sku) else None,
           p.category, p.unit, Round4(if p.size.Some? then p.size.value else 0.0), lib.upper(Trim(p.code)), p.kind)
  }

  function CountIn(rows: seq<Stored>, category: Option<Id>): nat {
    if |rows| == 0 then 0
    else CountIn(rows[..|rows| - 1], category) + if rows[|rows| - 1].category == category then 1 else 0
  }

  /** Rows created so far, and the next sequence number of every category met without a SKU. */
  datatype Making = Making(created: seq<Stored>, sequences: map<Option<Id>, nat>)

  function NextNumber(table: seq<Stored>, m: Making, category: Option<Id>): nat {
    if category in m.sequences then m.sequences[category] else CountIn(table + m.created, category) + 1
  }

  function SkuFor(lib: Lib, table: seq<Stored>, m: Making, p: Prepared): string {
    if Text(p.sku) != "" then Text(p.sku)
    else lib.makeSku(p.categoryCode, Text(p.name), NextNumber(table, m, p.category))
  }

  function MakeOne(lib: Lib, res: Resource, table: seq<Stored>, m: Making, p: Prepared): Making {
    Append(lib, res, m.created, p, SkuFor(lib, table, m, p), NextSequences(res, table, m, p))
  }

  function NextSequences(res: Resource, table: seq<Stored>, m: Making, p: Prepared): map<Option<Id>, nat> {
    if res == Products && Text(p.sku) == "" then m.sequences[p.category := NextNumber(table, m, p.category) + 1] else m.sequences
  }

  function Append(lib: Lib, res: Resource, created: seq<Stored>, p: Prepared, sku: string, sequences: map<Option<Id>, nat>): Making {
    Making(created + [Store(lib, res, p, sku)], sequences)
  }

  function MakeAll(lib: Lib, res: Resource, table: seq<Stored>, rows: seq<Prepared>): (m: Making)
    ensures |m.created| == |rows|
  {
    if |rows| == 0 then Making([], map[])
    else MakeOne(lib, res, table, MakeAll(lib, res, table, rows[..|rows| - 1]), rows[|rows| - 1])
  }

  // ----- Validation of a whole file -----

  function PrepareAll(lib: Lib, known: Categories, rows: seq<FileRow>): (r: seq<Prepared>)
    ensures |r| == |rows|
  {
    seq(|rows|, i requires 0 <= i < |rows| => PrepareRow(lib, known, rows[i]))
  }

  function Identities(lib: Lib, res: Resource, table: seq<Stored>): set<string> {
    set r | r in table :: StoredIdentity(lib, res, r)
  }

  function IdentityOf(lib: Lib, known: Categories, res: Resource, row: FileRow): string {
    Identity(lib, res, PrepareRow(lib, known, row))
  }

  function IdentitiesOf(lib: Lib, known: Categories, res: Resource, rows: seq<FileRow>): (r: seq<string>)
    ensures |r| == |rows|
  {
    seq(|rows|, i requires 0 <= i < |rows| => IdentityOf(lib, known, res, rows[i]))
  }

  predicate RowsOk(lib: Lib, known: Categories, res: Resource, rows: seq<FileRow>) {
    forall i :: 0 <= i < |rows| ==> RowOk(lib, known, res, rows[i])
  }

  /** The identities are new and all different. */
  predicate Unseen(existing: set<string>, ids: seq<string>) {
    (forall i :: 0 <= i < |ids| ==> ids[i] !in existing)
    && (forall i, j :: 0 <= i < j < |ids| ==> ids[i] != ids[j])
  }

  /** No row has an error, none repeats an existing identity and none repeats another row's. */
  predicate FileOk(lib: Lib, known: Categories, res: Resource, table: seq<Stored>, rows: seq<FileRow>) {
    RowsOk(lib, known, res, rows) && Unseen(Identities(lib, res, table), IdentitiesOf(lib, known, res, rows))
  }

  // ----- Requests -----

  datatype Slot = Slot(org: Id, resource: Resource)
  datatype RecordKey = RecordKey(slot: Slot, key: string)
  datatype Record = Record(hash: Hash, createdRows: nat)

  datatype Upload = Upload(slot: Slot, rows: seq<FileRow>, hash: Hash, expected: Option<Hash>, key: Option<string>)

  datatype Reply =
    | Waiting
    | Created(createdRows: nat)
    | Repeated(createdRows: nat)
    | Conflict
    | BadRequest
    | Failed

  /** One import that wrote rows. */
  datatype Written = Written(key: RecordKey, hash: Hash, prepared: seq<Prepared>, rows: seq<Stored>)

  datatype State = State(
    tables: map<Slot, seq<Stored>>, categories: map<Id, Categories>, records: map<RecordKey, Record>,
    phases: map<Client, Upload>, log: seq<Written>)

  function Table(s: State, slot: Slot): seq<Stored> {
    if slot in s.tables then s.tables[slot] else []
  }

  function Known(s: State, org: Id): Categories {
    if org in s.categories then s.categories[org] else map[]
  }

  predicate KeyOk(key: Option<string>) {
    key.Some? && 8 <= |key.value| <= 100
  }

  function KeyOf(q: Upload): RecordKey
    requires q.key.Some?
  {
    RecordKey(q.slot, q.key.value)
  }

  function Replay(r: Record, hash: Hash): Reply {
    if r.hash != hash then Conflict else Repeated(r.createdRows)
  }

  predicate UploadOk(lib: Lib, s: State, q: Upload) {
    FileOk(lib, Known(s, q.slot.org), q.slot.resource, Table(s, q.slot), q.rows)
  }

  /** Everything before the transaction. */
  function BeginReply(lib: Lib, s: State, q: Upload): Reply {
    if q.expected.Some? && q.expected.value != q.hash then Conflict
    else if !KeyOk(q.key) then BadRequest
    else if KeyOf(q) in s.records then Replay(s.records[KeyOf(q)], q.hash)
    else if !UploadOk(lib, s, q) then BadRequest
    else Waiting
  }

  function Begin(lib: Lib, s: State, c: Client, q: Upload): State {
    if c in s.phases || BeginReply(lib, s, q) != Waiting then s else s.(phases := s.phases[c := q])
  }

  /** SKUs are unique over all organizations. */
  predicate SkusFree(s: State, slot: Slot, rows: seq<Stored>) {
    slot.resource == Products ==>
      (forall i, j :: 0 <= i < j < |rows| ==> rows[i].sku != rows[j].sku)
      && (forall t, r, x :: t in s.tables && t.resource == Products && r in s.tables[t] && x in rows ==> r.sku != x.sku)
  }

  function RowsFor(lib: Lib, s: State, q: Upload): (r: seq<Stored>)
    ensures |r| == |q.rows|
  {
    CreatedFrom(lib, Known(s, q.slot.org), q.slot.resource, Table(s, q.slot), q.rows)
  }

  /** The transaction, which holds the advisory lock of its organization and resource. */
  function CommitReply(lib: Lib, s: State, q: Upload): Reply
    requires q.key.Some?
  {
    if KeyOf(q) in s.records then Replay(s.records[KeyOf(q)], q.hash)
    else if !UploadOk(lib, s, q) then BadRequest
    else if !SkusFree(s, q.slot, RowsFor(lib, s, q)) then Failed
    else Created(|q.rows|)
  }

  function Insert(lib: Lib, s: State, q: Upload): State
    requires q.key.Some?
  {
    var rows := RowsFor(lib, s, q);
    s.(tables := s.tables[q.slot := Table(s, q.slot) + rows],
       records := s.records[KeyOf(q) := Record(q.hash, |q.rows|)],
       log := s.log + [Written(KeyOf(q), q.hash, PrepareAll(lib, Known(s, q.slot.org), q.rows), rows)])
  }

  function Commit(lib: Lib, s: State, c: Client): State {
    if c !in s.phases || s.phases[c].key.None? then s
    else
      var q := s.phases[c];
      var t := s.(phases := s.phases - {c});
      if CommitReply(lib, s, q).Created? then Insert(lib, t, q) else t
  }

  datatype Event =
    | BeginImport(client: Client, upload: Upload)
    | CommitImport(client: Client)
    | Elsewhere(slot: Slot, table: seq<Stored>)
    | SetCategories(org: Id, known: Categories)

  /** `Elsewhere` is any other request that changes a table. */
  function Step(lib: Lib, s: State, e: Event): State {
    match e
    case BeginImport(c, q) => Begin(lib, s, c, q)
    case CommitImport(c) => Commit(lib, s, c)
    case Elsewhere(slot, table) => s.(tables := s.tables[slot := table])
    case SetCategories(org, known) => s.(categories := s.categories[org := known])
  }

  function Run(lib: Lib, s: State, es: seq<Event>): State {
    if |es| == 0 then s else Step(lib, Run(lib, s, es[..|es| - 1]), es[|es| - 1])
  }

  // ----- At most once -----

  predicate Recorded(s: State) {
    (forall i :: 0 <= i < |s.log| ==>
       s.log[i].key in s.records && s.records[s.log[i].key] == Record(s.log[i].hash, |s.log[i].rows|))
    && (forall i, j :: 0 <= i < j < |s.log| ==> s.log[i].key != s.log[j].key)
  }

  lemma StepRecorded(lib: Lib, s: State, e: Event)
    requires Recorded(s)
    ensures Recorded(Step(lib, s, e))
  {
    if e.CommitImport? {
      CommitRecorded(lib, s, e.client);
    }
  }

  lemma CommitRecorded(lib: Lib, s: State, c: Client)
    requires Recorded(s)
    ensures Recorded(Commit(lib, s, c))
  {
    if c in s.phases && s.phases[c].key.Some? && CommitReply(lib, s, s.phases[c]).Created? {
      InsertRecorded(lib, s.(phases := s.phases - {c}), s.phases[c]);
    }
  }

  lemma InsertRecorded(lib: Lib, s: State, q: Upload)
    requires Recorded(s) && q.key.Some? && KeyOf(q) !in s.records
    ensures Recorded(Insert(lib, s, q))
  {
    var t := Insert(lib, s, q);
    forall i | 0 <= i < |t.log|
      ensures t.log[i].key in t.records && t.records[t.log[i].key] == Record(t.log[i].hash, |t.log[i].rows|)
    {
      if i < |s.log| {
        assert t.log[i] == s.log[i];
      }
    }
    forall i, j | 0 <= i < j < |t.log|
      ensures t.log[i].key != t.log[j].key
    {
      if j == |s.log| {
        assert t.log[i] == s.log[i];
      }
    }
  }

  /** For every interleaving, rows for one organization, resource and idempotency key are written at most once. */
  lemma {:induction false} WrittenAtMostOnce(lib: Lib, s: State, es: seq<Event>)
    requires Recorded(s)
    ensures Recorded(Run(lib, s, es))
    ensures forall i, j :: 0 <= i < j < |Run(lib, s, es).log| ==> Run(lib, s, es).log[i].key != Run(lib, s, es).log[j].key
    decreases |es|
  {
    if |es| > 0 {
      WrittenAtMostOnce(lib, s, es[..|es| - 1]);
      StepRecorded(lib, Run(lib, s, es[..|es| - 1]), es[|es| - 1]);
    }
  }

  lemma StepKeepsRecord(lib: Lib, s: State, e: Event, k: RecordKey)
    requires k in s.records
    ensures k in Step(lib, s, e).records && Step(lib, s, e).records[k] == s.records[k]
  {}

  /** Once a key is used, every later request with it, at either check, gets the stored result or a conflict, and writes nothing. */
  lemma {:induction false} UsedKeyAnswers(lib: Lib, s: State, es: seq<Event>, k: RecordKey, q: Upload)
    requires k in s.records && KeyOk(q.key) && KeyOf(q) == k && (q.expected.Some? ==> q.expected.value == q.hash)
    ensures var t := Run(lib, s, es);
            var answer := if q.hash == s.records[k].hash then Repeated(s.records[k].createdRows) else Conflict;
            k in t.records && t.records[k] == s.records[k] && BeginReply(lib, t, q) == answer && CommitReply(lib, t, q) == answer
    decreases |es|
  {
    if |es| > 0 {
      UsedKeyAnswers(lib, s, es[..|es| - 1], k, q);
      StepKeepsRecord(lib, Run(lib, s, es[..|es| - 1]), es[|es| - 1], k);
    }
  }

  /** Of two clients past their prechecks with the same key, the second to commit writes nothing. */
  lemma SecondCommitWritesNothing(lib: Lib, s: State, c: Client, d: Client)
    requires c != d && c in s.phases && d in s.phases
    requires s.phases[c].key.Some? && s.phases[d].key.Some? && KeyOf(s.phases[c]) == KeyOf(s.phases[d])
    requires CommitReply(lib, s, s.phases[c]).Created?
    ensures var t := Commit(lib, s, c); var u := Commit(lib, t, d);
            u.tables == t.tables && u.records == t.records && u.log == t.log
            && CommitReply(lib, t, s.phases[d])
               == if s.phases[d].hash == s.phases[c].hash then Repeated(|s.phases[c].rows|) else Conflict
  {
    CommitRecords(lib, s, c);
    KnownKeyWritesNothing(lib, Commit(lib, s, c), d);
  }

  lemma KnownKeyWritesNothing(lib: Lib, s: State, d: Client)
    requires d in s.phases && s.phases[d].key.Some? && KeyOf(s.phases[d]) in s.records
    ensures var u := Commit(lib, s, d); u.tables == s.tables && u.records == s.records && u.log == s.log
    ensures CommitReply(lib, s, s.phases[d]) == Replay(s.records[KeyOf(s.phases[d])], s.phases[d].hash)
  {}

  lemma CommitRecords(lib: Lib, s: State, c: Client)
    requires c in s.phases && s.phases[c].key.Some? && CommitReply(lib, s, s.phases[c]).Created?
    ensures var q := s.phases[c]; var t := Commit(lib, s, c);
            t.phases == s.phases - {c} && KeyOf(q) in t.records && t.records[KeyOf(q)] == Record(q.hash, |q.rows|)
  {}

  // ----- A stored row has the identity of the file row it came from -----

  /** Values that are not strings print without surrounding blanks. */
  predicate Tidy(c: Cell) {
    c.Printed? ==> Trim(c.s) == c.s
  }

  predicate TidyRow(row: FileRow) {
    Tidy(row.name) && Tidy(row.taxId) && Tidy(row.phone) && Tidy(row.first) && Tidy(row.last) && Tidy(row.email) && Tidy(row.sku)
  }

  /** Upper-casing an already upper-case ASCII code changes nothing. */
  ghost predicate UpperFits(lib: Lib) {
    forall s :: IsCode(s) ==> lib.upper(s) == s
  }

  /** A value with more than four decimals does not print like the one it is rounded to. */
  ghost predicate ShowTellsRounding(lib: Lib) {
    forall x: real :: PrintsApart(lib, x)
  }

  predicate PrintsApart(lib: Lib, x: real) {
    lib.show(Round4(x)) == lib.show(x) ==> Round4(x) == x
  }

  /** The cases in which what is stored identifies a row as its file did. */
  predicate Faithful(lib: Lib, res: Resource, row: FileRow) {
    match res
    case Products => Text(row.sku) != ""
    case Supplies => lib.parse(Shown(row.size)).Some? && Round4(lib.parse(Shown(row.size)).value) == lib.parse(Shown(row.size)).value
    case _ => true
  }

  lemma KeptText(c: Cell)
    requires Tidy(c)
    ensures Shown(Kept(c)) == Text(c) && Text(Kept(c)) == Text(c) && Trim(Text(c)) == Text(c)
  {
    TrimTwice(Shown(c));
  }

  lemma CodeTrims(s: string)
    requires IsCode(s)
    ensures Trim(s) == s
  {
    assert !Space(s[0]) && !Space(s[2]);
  }

  lemma {:induction false} AppendEqual(p: string, a: string, b: string)
    requires p + a == p + b
    ensures a == b
  {
    assert (p + a)[|p|..] == a && (p + b)[|p|..] == b;
  }

  /**
   The identity read back from the table equals the one computed from the file, for every
   resource and row, except exactly for products without a SKU and supplies whose package
   size has more than four decimals.
   */
  lemma IdentityKept(lib: Lib, known: Categories, res: Resource, row: FileRow, sku: string)
    requires RowOk(lib, known, res, row) && TidyRow(row) && UpperFits(lib) && ShowTellsRounding(lib)
    requires Text(row.sku) != "" ==> sku == Text(row.sku)
    requires sku != ""
    ensures var p := PrepareRow(lib, known, row);
            StoredIdentity(lib, res, Store(lib, res, p, sku)) == Identity(lib, res, p) <==> Faithful(lib, res, row)
  {
    var p := PrepareRow(lib, known, row);
    KeptText(row.name);
    KeptText(row.taxId);
    KeptText(row.phone);
    KeptText(row.first);
    KeptText(row.last);
    KeptText(row.email);
    KeptText(row.sku);
    var r := Store(lib, res, p, sku);
    match res
    case Clients => ClientIdentity(lib, p, r);
    case Suppliers => SupplierIdentity(lib, p, r);
    case Employees => EmployeeIdentity(lib, p, r);
    case Products => ProductIdentity(lib, p, r, sku);
    case Supplies => SupplyIdentity(lib, p, r);
    case ProductCategories => CodeTrims(p.code);
    case ExpenseCategories =>
    case TransactionCategories =>
  }

  /** What a column stores is what identities read from it. */
  predicate Reads(c: Cell, stored: string) {
    stored == Text(c) && Trim(stored) == Trim(Shown(c)) && Shown(c) == stored
  }

  lemma ClientIdentity(lib: Lib, p: Prepared, r: Stored)
    requires r.taxId == OrNull(Text(p.taxId)) && Reads(p.taxId, Text(p.taxId)) && Reads(p.name, r.name) && Reads(p.phone, r.phone)
    ensures StoredIdentity(lib, Clients, r) == Identity(lib, Clients, p)
  {}

  lemma SupplierIdentity(lib: Lib, p: Prepared, r: Stored)
    requires r.taxId == Some(Text(p.taxId)) && Reads(p.taxId, Text(p.taxId))
    ensures StoredIdentity(lib, Suppliers, r) == Identity(lib, Suppliers, p)
  {}

  lemma EmployeeIdentity(lib: Lib, p: Prepared, r: Stored)
    requires r.taxId == OrNull(Text(p.taxId)) && Reads(p.taxId, Text(p.taxId))
    requires Reads(p.first, r.first) && Reads(p.last, r.last) && r.email == OrNull(Text(p.email)) && Reads(p.email, Text(p.email))
    ensures StoredIdentity(lib, Employees, r) == Identity(lib, Employees, p)
  {}

  lemma ProductIdentity(lib: Lib, p: Prepared, r: Stored, sku: string)
    requires r.sku == Some(sku) && sku != "" && Reads(p.sku, Text(p.sku)) && (Text(p.sku) != "" ==> sku == Text(p.sku))
    ensures StoredIdentity(lib, Products, r) == Identity(lib, Products, p) <==> Text(p.sku) != ""
  {
    if Text(p.sku) == "" {
      SkuAndProductDiffer(Normalized(lib, sku), Normalized(lib, Shown(p.name)) + "|category:" + ShowId(lib, p.category));
    }
  }

  lemma SkuAndProductDiffer(a: string, b: string)
    ensures "sku:" + a != "product:" + b
  {
    assert ("sku:" + a)[0] == 's' && ("product:" + b)[0] == 'p';
  }

  lemma SupplyIdentity(lib: Lib, p: Prepared, r: Stored)
    requires p.size.Some? && r.name == Text(p.name) && Trim(r.name) == Trim(Shown(p.name)) && r.unit == p.unit
    requires r.size == Round4(p.size.value) && ShowTellsRounding(lib)
    ensures StoredIdentity(lib, Supplies, r) == Identity(lib, Supplies, p) <==> Round4(p.size.value) == p.size.value
  {
    var front := "supply:" + Normalized(lib, r.name) + "|unit:" + r.unit + "|size:";
    assert StoredIdentity(lib, Supplies, r) == front + lib.show(r.size);
    assert Identity(lib, Supplies, p) == front + lib.show(p.size.value);
    if front + lib.show(r.size) == front + lib.show(p.size.value) {
      AppendEqual(front, lib.show(r.size), lib.show(p.size.value));
      assert PrintsApart(lib, p.size.value);
    }
  }

  // ----- Numbers of generated SKUs -----

  /** How many rows ask for a generated SKU in one category. */
  function Skuless(rows: seq<Prepared>, category: Option<Id>): nat {
    if |rows| == 0 then 0
    else
      var last := rows[|rows| - 1];
      Skuless(rows[..|rows| - 1], category) + if Text(last.sku) == "" && last.category == category then 1 else 0
  }

  /**
   Within one import the SKU-less rows of a category are numbered without gap or repetition:
   between any two points of the loop its next number advances by the rows that took one.
   */
  lemma {:induction false} SequenceAdvances(lib: Lib, table: seq<Stored>, rows: seq<Prepared>, i: nat, category: Option<Id>)
    requires i <= |rows| && category in Numbers(lib, table, rows[..i])
    ensures category in Numbers(lib, table, rows)
    ensures Numbers(lib, table, rows)[category] == Numbers(lib, table, rows[..i])[category] + Skuless(rows[i..], category)
    decreases |rows|
  {
    if i == |rows| {
      assert rows[..i] == rows && rows[i..] == [];
    } else {
      var n := |rows| - 1;
      TakeTwice(rows, n, i);
      SequenceAdvances(lib, table, rows[..n], i, category);
      NumbersNext(lib, table, rows);
      NextAdvances(table, MakeAll(lib, Products, table, rows[..n]), rows[n], category);
      SkulessPush(rows[..n][i..], rows[n], category);
    }
  }

  /** The next number of each category after these rows. */
  function Numbers(lib: Lib, table: seq<Stored>, rows: seq<Prepared>): map<Option<Id>, nat> {
    MakeAll(lib, Products, table, rows).sequences
  }

  lemma NumbersNext(lib: Lib, table: seq<Stored>, rows: seq<Prepared>)
    requires |rows| > 0
    ensures var n := |rows| - 1;
            Numbers(lib, table, rows) == NextSequences(Products, table, MakeAll(lib, Products, table, rows[..n]), rows[n])
  {}

  lemma TakeTwice<T>(s: seq<T>, n: nat, i: nat)
    requires i <= n == |s| - 1
    ensures s[..n][..i] == s[..i] && s[i..] == s[..n][i..] + [s[n]]
  {}

  lemma NextAdvances(table: seq<Stored>, m: Making, p: Prepared, category: Option<Id>)
    requires category in m.sequences
    ensures var next := NextSequences(Products, table, m, p);
            category in next
            && next[category] == m.sequences[category] + if Text(p.sku) == "" && p.category == category then 1 else 0
  {}

  lemma SkulessPush(rows: seq<Prepared>, p: Prepared, category: Option<Id>)
    ensures Skuless(rows + [p], category) == Skuless(rows, category) + if Text(p.sku) == "" && p.category == category then 1 else 0
  {
    assert (rows + [p])[..|rows|] == rows;
  }

  /** The first of them takes one more than the products the category has by then. */
  lemma {:induction false} SequenceStarts(lib: Lib, table: seq<Stored>, rows: seq<Prepared>, category: Option<Id>)
    ensures category in MakeAll(lib, Products, table, rows).sequences <==> Skuless(rows, category) > 0
    ensures category !in MakeAll(lib, Products, table, rows).sequences ==>
              NextNumber(table, MakeAll(lib, Products, table, rows), category)
              == CountIn(table + MakeAll(lib, Products, table, rows).created, category) + 1
  {
    if |rows| > 0 {
      SequenceStarts(lib, table, rows[..|rows| - 1], category);
    }
  }

  // ----- Stored identities stay pairwise distinct -----

  predicate DistinctIdentities(lib: Lib, res: Resource, table: seq<Stored>) {
    forall i, j :: 0 <= i < j < |table| ==> StoredIdentity(lib, res, table[i]) != StoredIdentity(lib, res, table[j])
  }

  /** Every SKU handed out, given or generated, is some text. */
  ghost predicate SkusNonEmpty(lib: Lib) {
    forall a, b, n :: lib.makeSku(a, b, n) != ""
  }

  lemma {:induction false} CreatedRow(lib: Lib, res: Resource, table: seq<Stored>, rows: seq<Prepared>, i: nat) returns (sku: string)
    requires i < |rows|
    ensures MakeAll(lib, res, table, rows).created[i] == Store(lib, res, rows[i], sku)
    ensures Text(rows[i].sku) != "" ==> sku == Text(rows[i].sku)
    ensures SkusNonEmpty(lib) ==> sku != ""
  {
    var n := |rows| - 1;
    if i == n {
      sku := SkuFor(lib, table, MakeAll(lib, res, table, rows[..n]), rows[n]);
    } else {
      sku := CreatedRow(lib, res, table, rows[..n], i);
    }
  }

  predicate AllFaithful(lib: Lib, res: Resource, rows: seq<FileRow>) {
    forall i :: 0 <= i < |rows| ==> TidyRow(rows[i]) && Faithful(lib, res, rows[i])
  }

  ghost predicate Fits(lib: Lib) {
    UpperFits(lib) && ShowTellsRounding(lib) && SkusNonEmpty(lib)
  }

  // A library that fits: decimal numerals to four places, marked when places are cut off.

  function Digits(n: nat): (s: string)
    ensures s != [] && forall i :: 0 <= i < |s| ==> '0' <= s[i] <= '9'
  {
    var last := ['0' + (n % 10) as char];
    if n < 10 then last else Digits(n / 10) + last
  }

  function Numeral(x: real): string {
    var units := (x * 10000.0 + 0.5).Floor;
    (if units < 0 then "-" + Digits(-units) else Digits(units)) + "e-4" + (if Round4(x) == x then "" else "...")
  }

  function Same(s: string): string {
    s
  }

  function Numbered(code: string, name: string, n: nat): string {
    code + "-" + Digits(n)
  }

  function Plain(lib: Lib): Lib {
    lib.(upper := Same, show := Numeral, makeSku := Numbered)
  }

  lemma WholeFloor(n: int, y: real)
    requires y == n as real + 0.5
    ensures y.Floor == n
  {}

  lemma RoundTwice(x: real)
    ensures Round4(Round4(x)) == Round4(x)
  {
    var n := (x * 10000.0 + 0.5).Floor;
    WholeFloor(n, Round4(x) * 10000.0 + 0.5);
  }

  lemma NumeralTells(x: real)
    ensures Numeral(Round4(x)) == Numeral(x) ==> Round4(x) == x
  {
    RoundTwice(x);
    if Round4(x) != x {
      var shown, rounded := Numeral(x), Numeral(Round4(x));
      assert shown[|shown| - 1] == '.' && rounded[|rounded| - 1] == '4';
    }
  }

  /** What is assumed of the library can be met, whatever else the library does. */
  lemma PlainFits(lib: Lib)
    ensures Fits(Plain(lib))
  {
    forall x: real ensures PrintsApart(Plain(lib), x) {
      NumeralTells(x);
    }
    forall a, b, n ensures Plain(lib).makeSku(a, b, n) != "" {
      assert |Numbered(a, b, n)| > 0;
    }
  }

  lemma CreatedIdentity(lib: Lib, known: Categories, res: Resource, table: seq<Stored>, rows: seq<FileRow>, i: nat)
    requires i < |rows| && RowOk(lib, known, res, rows[i]) && TidyRow(rows[i]) && Faithful(lib, res, rows[i]) && Fits(lib)
    ensures StoredIdentity(lib, res, CreatedFrom(lib, known, res, table, rows)[i]) == IdentityOf(lib, known, res, rows[i])
  {
    var sku := CreatedRow(lib, res, table, PrepareAll(lib, known, rows), i);
    KeptText(rows[i].sku);
    IdentityKept(lib, known, res, rows[i], sku);
  }

  /** The rows an import writes. */
  function CreatedFrom(lib: Lib, known: Categories, res: Resource, table: seq<Stored>, rows: seq<FileRow>): (r: seq<Stored>)
    ensures |r| == |rows|
  {
    MakeAll(lib, res, table, PrepareAll(lib, known, rows)).created
  }

  // ----- Importing one row twice -----

  lemma OneRowOk(lib: Lib, known: Categories, res: Resource, table: seq<Stored>, row: FileRow)
    requires RowOk(lib, known, res, row)
    ensures FileOk(lib, known, res, table, [row]) <==> IdentityOf(lib, known, res, row) !in Identities(lib, res, table)
  {
    var ids := IdentitiesOf(lib, known, res, [row]);
    assert ids[0] == IdentityOf(lib, known, res, row);
  }

  lemma OneIdentity(lib: Lib, res: Resource, r: Stored)
    ensures Identities(lib, res, [r]) == {StoredIdentity(lib, res, r)}
  {
    assert r in [r];
  }

  /** A row into an empty table, and the same row again: it passes as new the second time exactly if it is not stored faithfully. */
  lemma ImportedTwiceIff(lib: Lib, known: Categories, res: Resource, row: FileRow)
    requires RowOk(lib, known, res, row) && TidyRow(row) && Fits(lib)
    ensures FileOk(lib, known, res, CreatedFrom(lib, known, res, [], [row]), [row]) <==> !Faithful(lib, res, row)
  {
    var rows := PrepareAll(lib, known, [row]);
    var sku := CreatedRow(lib, res, [], rows, 0);
    KeptText(row.sku);
    IdentityKept(lib, known, res, row, sku);
    var created := CreatedFrom(lib, known, res, [], [row]);
    assert created == [created[0]];
    OneIdentity(lib, res, created[0]);
    OneRowOk(lib, known, res, created, row);
  }

  // ----- A supply in finer packages than the column keeps -----

  function Fine(s: string): Option<real> {
    Some(0.00015)
  }

  const PLAIN := Plain(Lib(Same, Same, Fine, Numeral, Digits, Numbered))
  const SAFFRON := FileRow(
    Str("Saffron"), Blank, Blank, Blank, Blank, Blank, Blank, Blank, Str("GRAM"), Str("0.00015"), Blank, Blank, true)

  lemma SaffronOk()
    ensures RowOk(PLAIN, map[], Supplies, SAFFRON) && TidyRow(SAFFRON) && !Faithful(PLAIN, Supplies, SAFFRON)
  {
    assert !Space("Saffron"[0]) && !Space("Saffron"[6]) && !Space("GRAM"[0]) && !Space("GRAM"[3]);
    assert Trim("Saffron") == "Saffron" && Trim("GRAM") == "GRAM";
    WholeFloor(1, 1.5);
    assert (0.00015 * 10000.0 + 0.5).Floor == 2;
  }

  /** The file that was imported passes validation against what it stored, and would be imported once more. */
  lemma SaffronTwice()
    ensures FileOk(PLAIN, map[], Supplies, [], [SAFFRON])
    ensures FileOk(PLAIN, map[], Supplies, CreatedFrom(PLAIN, map[], Supplies, [], [SAFFRON]), [SAFFRON])
  {
    SaffronOk();
    PlainFits(PLAIN);
    OneRowOk(PLAIN, map[], Supplies, [], SAFFRON);
    ImportedTwiceIff(PLAIN, map[], Supplies, SAFFRON);
  }

  /** Appending rows whose identities are new and different keeps a table free of duplicates. */
  lemma AppendDistinct(lib: Lib, res: Resource, table: seq<Stored>, created: seq<Stored>)
    requires DistinctIdentities(lib, res, table) && DistinctIdentities(lib, res, created)
    requires forall j :: 0 <= j < |created| ==> StoredIdentity(lib, res, created[j]) !in Identities(lib, res, table)
    ensures DistinctIdentities(lib, res, table + created)
  {
    var after := table + created;
    forall i, j | 0 <= i < j < |after|
      ensures StoredIdentity(lib, res, after[i]) != StoredIdentity(lib, res, after[j])
    {
      if i < |table| <= j {
        assert table[i] in table;
        assert after[j] == created[j - |table|];
      } else if j >= |table| {
        assert after[i] == created[i - |table|] && after[j] == created[j - |table|];
      }
    }
  }

  /** A file that passes validation and stores faithfully keeps the table free of duplicates. */
  lemma ImportKeepsDistinct(lib: Lib, known: Categories, res: Resource, table: seq<Stored>, rows: seq<FileRow>)
    requires DistinctIdentities(lib, res, table) && FileOk(lib, known, res, table, rows)
    requires AllFaithful(lib, res, rows) && Fits(lib)
    ensures DistinctIdentities(lib, res, table + CreatedFrom(lib, known, res, table, rows))
  {
    var ids := IdentitiesOf(lib, known, res, rows);
    forall j | 0 <= j < |rows|
      ensures StoredIdentity(lib, res, CreatedFrom(lib, known, res, table, rows)[j]) == ids[j]
    {
      CreatedIdentity(lib, known, res, table, rows, j);
    }
    UnseenDistinct(lib, res, table, CreatedFrom(lib, known, res, table, rows), ids);
  }

  lemma UnseenDistinct(lib: Lib, res: Resource, table: seq<Stored>, created: seq<Stored>, ids: seq<string>)
    requires DistinctIdentities(lib, res, table) && Unseen(Identities(lib, res, table), ids) && |ids| == |created|
    requires forall j :: 0 <= j < |created| ==> StoredIdentity(lib, res, created[j]) == ids[j]
    ensures DistinctIdentities(lib, res, table + created)
  {
    AppendDistinct(lib, res, table, created);
  }

  predicate Faithfully(lib: Lib, slot: Slot, e: Event) {
    (e.BeginImport? && e.upload.slot == slot ==> AllFaithful(lib, slot.resource, e.upload.rows))
    && (e.Elsewhere? ==> e.slot != slot)
  }

  predicate PhasesFaithful(lib: Lib, s: State, slot: Slot) {
    forall c :: c in s.phases && s.phases[c].slot == slot ==> AllFaithful(lib, slot.resource, s.phases[c].rows)
  }

  lemma CommitKeepsDistinct(lib: Lib, s: State, c: Client, slot: Slot)
    requires DistinctIdentities(lib, slot.resource, Table(s, slot)) && PhasesFaithful(lib, s, slot) && Fits(lib)
    ensures DistinctIdentities(lib, slot.resource, Table(Commit(lib, s, c), slot))
  {
    CommitTable(lib, s, c, slot);
    if c in s.phases && s.phases[c].slot == slot && UploadOk(lib, s, s.phases[c]) {
      ImportKeepsDistinct(lib, Known(s, slot.org), slot.resource, Table(s, slot), s.phases[c].rows);
    }
  }

  /** A commit leaves a table alone or appends the rows of a file that passes validation now. */
  lemma CommitTable(lib: Lib, s: State, c: Client, slot: Slot)
    ensures Table(Commit(lib, s, c), slot) == Table(s, slot)
         || (c in s.phases && s.phases[c].slot == slot && UploadOk(lib, s, s.phases[c])
             && Table(Commit(lib, s, c), slot)
                == Table(s, slot) + CreatedFrom(lib, Known(s, slot.org), slot.resource, Table(s, slot), s.phases[c].rows))
  {}

  lemma CommitPhases(lib: Lib, s: State, c: Client)
    ensures Commit(lib, s, c).phases == s.phases || Commit(lib, s, c).phases == s.phases - {c}
  {}

  lemma StepKeepsDistinct(lib: Lib, s: State, e: Event, slot: Slot)
    requires DistinctIdentities(lib, slot.resource, Table(s, slot)) && PhasesFaithful(lib, s, slot)
    requires Faithfully(lib, slot, e) && Fits(lib)
    ensures DistinctIdentities(lib, slot.resource, Table(Step(lib, s, e), slot)) && PhasesFaithful(lib, Step(lib, s, e), slot)
  {
    match e
    case BeginImport(c, q) =>
    case CommitImport(c) =>
      CommitKeepsDistinct(lib, s, c, slot);
      CommitPhases(lib, s, c);
    case Elsewhere(_, _) =>
    case SetCategories(_, _) =>
  }

  /** In every interleaving of imports, stored identities stay pairwise distinct as long as the rows store faithfully. */
  lemma {:induction false} RunKeepsDistinct(lib: Lib, s: State, es: seq<Event>, slot: Slot)
    requires DistinctIdentities(lib, slot.resource, Table(s, slot)) && PhasesFaithful(lib, s, slot) && Fits(lib)
    requires forall i :: 0 <= i < |es| ==> Faithfully(lib, slot, es[i])
    ensures DistinctIdentities(lib, slot.resource, Table(Run(lib, s, es), slot)) && PhasesFaithful(lib, Run(lib, s, es), slot)
    decreases |es|
  {
    if |es| > 0 {
      RunKeepsDistinct(lib, s, es[..|es| - 1], slot);
      StepKeepsDistinct(lib, Run(lib, s, es[..|es| - 1]), es[|es| - 1], slot);
    }
  }

  /** A product row without a SKU is never found to be a duplicate of stored products, which all have one. */
  lemma SkulessNeverDuplicate(lib: Lib, table: seq<Stored>, p: Prepared)
    requires Text(p.sku) == "" && forall r :: r in table ==> Given(r.sku)
    ensures Identity(lib, Products, p) !in Identities(lib, Products, table)
  {
    forall r | r in table
      ensures StoredIdentity(lib, Products, r) != Identity(lib, Products, p)
    {
      SkuAndProductDiffer(Normalized(lib, r.sku.value), Normalized(lib, Shown(p.name)) + "|category:" + ShowId(lib, p.category));
    }
  }
}
