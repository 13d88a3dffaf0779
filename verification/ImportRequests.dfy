/**
 What an import asks of its file and its key, what each reply means and what is written,
 in terms of the file's cells and the stored rows.
 */
module ImportRequests {
  import opened Options
  import opened Imports

  // ----- One row -----

  /** The columns that must not be blank. */
  function Required(res: Resource, row: FileRow): set<Cell> {
    match res
    case Clients => {row.name, row.phone}
    case Suppliers => {row.taxId}
    case Employees => {row.first, row.last}
    case Products => {row.name}
    case Supplies => {row.name}
    case ProductCategories => {row.name}
    case ExpenseCategories => {row.name}
    case TransactionCategories => {row.name}
  }

  /** A category code names a category of the organization whatever its case, accents and outer blanks. */
  predicate Names(lib: Lib, known: Categories, code: Cell) {
    Text(code) != "" && lib.fold(Text(code)) in known
  }

  predicate LettersAndDigits(s: string) {
    forall c :: c in s ==> ('A' <= c && c <= 'Z') || ('0' <= c && c <= '9')
  }

  ghost predicate WellFormed(lib: Lib, known: Categories, res: Resource, row: FileRow) {
    (res == Products && Text(row.categoryCode) != "" ==> Names(lib, known, row.categoryCode))
    && (res == Supplies ==>
          lib.upper(Text(row.unit)) in {"GRAM", "MILLILITER", "UNIT"}
          && exists size :: lib.parse(Shown(row.size)) == Some(size) && size >= 0.0001)
    && (res == ProductCategories ==> |lib.upper(Text(row.code))| == 3 && LettersAndDigits(lib.upper(Text(row.code))))
    && (res == TransactionCategories ==> lib.upper(Text(row.kind)) in {"INCOME", "EXPENSE"})
  }

  /** A row is without error exactly when no required cell is blank and every cell has its form. */
  lemma RowOkIff(lib: Lib, known: Categories, res: Resource, row: FileRow)
    ensures RowOk(lib, known, res, row) <==>
              row.othersFine && (forall c :: c in Required(res, row) ==> Text(c) != "") && WellFormed(lib, known, res, row)
  {
    if res == ProductCategories {
      CodeIff(lib.upper(Text(row.code)));
    }
  }

  lemma CodeIff(s: string)
    ensures IsCode(s) <==> |s| == 3 && LettersAndDigits(s)
  {
    if IsCode(s) {
      forall c | c in s ensures ('A' <= c && c <= 'Z') || ('0' <= c && c <= '9') {
        var i :| 0 <= i < |s| && s[i] == c;
      }
    } else if |s| == 3 {
      var i :| 0 <= i < 3 && !('A' <= s[i] <= 'Z' || '0' <= s[i] <= '9');
      assert s[i] in s;
    }
  }

  /** The columns written are the trimmed cells; a blank optional one is null, and only products have a SKU. */
  lemma StoreKeeps(lib: Lib, known: Categories, res: Resource, row: FileRow, sku: string)
    ensures var r := Store(lib, res, PrepareRow(lib, known, row), sku);
            r.name == Text(Kept(row.name)) && r.phone == Text(Kept(row.phone))
            && r.first == Text(Kept(row.first)) && r.last == Text(Kept(row.last))
            && (r.taxId == None <==> res != Suppliers && Text(Kept(row.taxId)) == "")
            && (r.taxId != None ==> r.taxId == Some(Text(Kept(row.taxId))))
            && (r.email == None <==> Text(Kept(row.email)) == "")
            && (r.email != None ==> r.email == Some(Text(Kept(row.email))))
            && r.sku == (if res == Products then Some(sku) else None)
            && r.unit == lib.upper(Text(row.unit)) && r.kind == lib.upper(Text(row.kind))
            && (forall size :: lib.parse(Shown(row.size)) == Some(size) ==> r.size == Round4(size))
            && (r.category == None <==> !Names(lib, known, row.categoryCode))
            && (r.category != None ==> r.category == Some(known[lib.fold(Text(row.categoryCode))].0))
  {}

  /** A SKU in the file is kept; without one it is made of category code, name and the category's next number, which is then taken. */
  lemma SkusComeFrom(lib: Lib, table: seq<Stored>, m: Making, p: Prepared)
    ensures var n := if p.category in m.sequences then m.sequences[p.category] else CountIn(table + m.created, p.category) + 1;
            var made := MakeOne(lib, Products, table, m, p);
            |made.created| == |m.created| + 1 && made.created[..|m.created|] == m.created
            && made.created[|m.created|].sku == Some(if Text(p.sku) == "" then lib.makeSku(p.categoryCode, Text(p.name), n) else Text(p.sku))
            && made.sequences == if Text(p.sku) == "" then m.sequences[p.category := n + 1] else m.sequences
  {}

  /** A stored package size is the parsed one to within half of the column's last decimal. */
  lemma SizeStored(x: real)
    ensures -0.00005 < Round4(x) - x <= 0.00005
  {}

  // ----- The file -----

  lemma UnseenIff(lib: Lib, res: Resource, table: seq<Stored>, ids: seq<string>)
    ensures Unseen(Identities(lib, res, table), ids) <==>
              (forall i, r :: 0 <= i < |ids| && r in table ==> StoredIdentity(lib, res, r) != ids[i])
              && (forall i, j :: 0 <= i < j < |ids| ==> ids[i] != ids[j])
  {}

  /** A file passes exactly when its rows do, no identity in it is stored already and no two are equal. */
  lemma FileOkIff(lib: Lib, known: Categories, res: Resource, table: seq<Stored>, rows: seq<FileRow>)
    ensures var ids := IdentitiesOf(lib, known, res, rows);
            |ids| == |rows|
            && (FileOk(lib, known, res, table, rows) <==>
                  && (forall i :: 0 <= i < |rows| ==> RowOk(lib, known, res, rows[i]))
                  && (forall i, r :: 0 <= i < |ids| && r in table ==> StoredIdentity(lib, res, r) != ids[i])
                  && (forall i, j :: 0 <= i < j < |ids| ==> ids[i] != ids[j]))
  {
    UnseenIff(lib, res, table, IdentitiesOf(lib, known, res, rows));
  }

  // ----- The replies -----

  predicate Stale(q: Upload) {
    q.expected.Some? && q.expected != Some(q.hash)
  }

  predicate Keyed(q: Upload) {
    q.key.Some? && |q.key.value| >= 8 && |q.key.value| <= 100
  }

  predicate UsedFor(s: State, q: Upload, hash: Hash)
    requires q.key.Some?
  {
    var k := RecordKey(q.slot, q.key.value);
    k in s.records && s.records[k].hash == hash
  }

  predicate Unused(s: State, q: Upload)
    requires q.key.Some?
  {
    RecordKey(q.slot, q.key.value) !in s.records
  }

  /** Before the transaction: each reply exactly for its cause. */
  lemma BeginReplyIff(lib: Lib, s: State, q: Upload)
    ensures var r := BeginReply(lib, s, q);
            (r == Waiting <==> !Stale(q) && Keyed(q) && Unused(s, q) && UploadOk(lib, s, q))
            && (r == Imports.Conflict <==> Stale(q) || (Keyed(q) && !Unused(s, q) && !UsedFor(s, q, q.hash)))
            && (r == BadRequest <==> !Stale(q) && (!Keyed(q) || (Unused(s, q) && !UploadOk(lib, s, q))))
            && (r.Repeated? <==> !Stale(q) && Keyed(q) && UsedFor(s, q, q.hash))
            && (r.Repeated? ==> r.createdRows == s.records[RecordKey(q.slot, q.key.value)].createdRows)
  {}

  /** Inside it: rows are written exactly when the key is still unused, the file still passes and its SKUs are free. */
  lemma CommitReplyIff(lib: Lib, s: State, q: Upload)
    requires q.key.Some?
    ensures var r := CommitReply(lib, s, q);
            (r.Created? <==> Unused(s, q) && UploadOk(lib, s, q) && SkusFree(s, q.slot, RowsFor(lib, s, q)))
            && (r.Created? ==> r.createdRows == |q.rows|)
            && (r == Imports.Conflict <==> !Unused(s, q) && !UsedFor(s, q, q.hash))
            && (r.Repeated? <==> UsedFor(s, q, q.hash))
            && (r == BadRequest <==> Unused(s, q) && !UploadOk(lib, s, q))
            && (r == Imports.Failed <==> Unused(s, q) && UploadOk(lib, s, q) && !SkusFree(s, q.slot, RowsFor(lib, s, q)))
  {}

  lemma InsertStores(lib: Lib, s: State, q: Upload)
    requires q.key.Some?
    ensures Insert(lib, s, q).tables == s.tables[q.slot := Table(s, q.slot) + RowsFor(lib, s, q)]
    ensures Insert(lib, s, q).records == s.records[RecordKey(q.slot, q.key.value) := Record(q.hash, |q.rows|)]
    ensures Insert(lib, s, q).phases == s.phases && Insert(lib, s, q).categories == s.categories
    ensures |Insert(lib, s, q).log| == |s.log| + 1 && Insert(lib, s, q).log[..|s.log|] == s.log
    ensures var w := Insert(lib, s, q).log[|s.log|];
            w.key == RecordKey(q.slot, q.key.value) && w.hash == q.hash && w.rows == RowsFor(lib, s, q)
  {}

  /** What is written: one row per file row at the end of the table, and the key with the file's hash and count. */
  lemma CommitStores(lib: Lib, s: State, c: Client)
    requires c in s.phases && s.phases[c].key.Some? && CommitReply(lib, s, s.phases[c]).Created?
    ensures var t, q := Commit(lib, s, c), s.phases[c];
            t.phases == s.phases - {c} && t.categories == s.categories
            && t.tables == s.tables[q.slot := Table(s, q.slot) + RowsFor(lib, s, q)]
            && t.records == s.records[RecordKey(q.slot, q.key.value) := Record(q.hash, |q.rows|)]
            && |t.log| == |s.log| + 1 && t.log[..|s.log|] == s.log
            && t.log[|s.log|].key == RecordKey(q.slot, q.key.value) && t.log[|s.log|].rows == RowsFor(lib, s, q)
  {
    var q, mid := s.phases[c], s.(phases := s.phases - {c});
    assert Table(mid, q.slot) == Table(s, q.slot) && Known(mid, q.slot.org) == Known(s, q.slot.org);
    assert RowsFor(lib, mid, q) == RowsFor(lib, s, q);
    InsertStores(lib, mid, q);
  }

  /** With any other reply nothing is. */
  lemma OtherwiseNothing(lib: Lib, s: State, c: Client)
    requires c in s.phases && s.phases[c].key.Some? && !CommitReply(lib, s, s.phases[c]).Created?
    ensures Commit(lib, s, c) == s.(phases := s.phases - {c})
  {}

  /** A request past its prechecks waits for its transaction, and no other does; tables and categories are what they were last made. */
  lemma EventsAreCalls(lib: Lib, s: State, c: Client, q: Upload, table: seq<Stored>, org: Id, known: Categories)
    ensures Step(lib, s, BeginImport(c, q))
         == if c !in s.phases && BeginReply(lib, s, q) == Waiting then s.(phases := s.phases[c := q]) else s
    ensures Step(lib, s, CommitImport(c)) == Commit(lib, s, c)
    ensures Table(Step(lib, s, Elsewhere(q.slot, table)), q.slot) == table
    ensures Known(Step(lib, s, SetCategories(org, known)), org) == known
  {}

  /** SKUs are free when none is in the file twice and none is another product's, in whatever organization. */
  lemma SkusFreeIff(s: State, slot: Slot, rows: seq<Stored>)
    requires slot.resource == Products
    ensures SkusFree(s, slot, rows) <==>
              (forall i, j :: 0 <= i < |rows| && 0 <= j < |rows| && i != j ==> rows[i].sku != rows[j].sku)
              && (forall t, r, x :: t in s.tables && t.resource == Products && r in s.tables[t] && x in rows ==> x.sku != r.sku)
  {}

  function In(rows: seq<Stored>, category: Option<Id>): set<nat> {
    set i: nat | i < |rows| && rows[i].category == category
  }

  /** The count behind sequence numbers is the number of rows of the category. */
  lemma {:induction false} CountInIs(rows: seq<Stored>, category: Option<Id>)
    ensures CountIn(rows, category) == |In(rows, category)|
  {
    if |rows| > 0 {
      var n := |rows| - 1;
      CountInIs(rows[..n], category);
      if rows[n].category == category {
        assert In(rows, category) == In(rows[..n], category) + {n};
      } else {
        assert In(rows, category) == In(rows[..n], category);
      }
    }
  }

  // ----- What an identity tells apart -----

  lemma PrefixTells(z: string, a: string, b: string)
    ensures z + a == z + b <==> a == b
  {
    if z + a == z + b {
      AppendEqual(z, a, b);
    }
  }

  lemma SuffixTells(a: string, b: string, z: string)
    ensures a + z == b + z <==> a == b
  {
    if a + z == b + z {
      assert |a| == |b|;
      assert a == (a + z)[..|a|] && b == (b + z)[..|b|];
    }
  }

  /** Of two labelled parts each tells: where one agrees the whole agrees exactly if the other does. */
  lemma PartsTell(l: string, a: string, b: string, m: string, x: string, y: string)
    ensures a == b ==> (l + a + m + x == l + b + m + y <==> x == y)
    ensures x == y ==> (l + a + m + x == l + b + m + y <==> a == b)
  {
    PrefixTells(l + a + m, x, y);
    if x == y {
      SuffixTells(l + a + m, l + b + m, x);
      SuffixTells(l + a, l + b, m);
      PrefixTells(l, a, b);
    }
  }

  /** Tax ids tell suppliers, and clients and employees that have one, exactly once normalized. */
  lemma TaxIdsTell(lib: Lib, p: Prepared, q: Prepared, res: Resource)
    requires res == Suppliers || (res in {Clients, Employees} && Text(p.taxId) != "" && Text(q.taxId) != "")
    ensures Identity(lib, res, p) == Identity(lib, res, q)
       <==> Normalized(lib, Shown(p.taxId)) == Normalized(lib, Shown(q.taxId))
  {
    PrefixTells("tax:", Normalized(lib, Shown(p.taxId)), Normalized(lib, Shown(q.taxId)));
  }

  /** So do SKUs of products that have one, codes of product categories and names of expense categories. */
  lemma CodesTell(lib: Lib, p: Prepared, q: Prepared)
    ensures Text(p.sku) != "" && Text(q.sku) != "" ==>
              (Identity(lib, Products, p) == Identity(lib, Products, q)
               <==> Normalized(lib, Shown(p.sku)) == Normalized(lib, Shown(q.sku)))
    ensures Identity(lib, ProductCategories, p) == Identity(lib, ProductCategories, q)
       <==> Normalized(lib, p.code) == Normalized(lib, q.code)
    ensures Identity(lib, ExpenseCategories, p) == Identity(lib, ExpenseCategories, q)
       <==> Normalized(lib, Shown(p.name)) == Normalized(lib, Shown(q.name))
  {
    PrefixTells("sku:", Normalized(lib, Shown(p.sku)), Normalized(lib, Shown(q.sku)));
    PrefixTells("code:", Normalized(lib, p.code), Normalized(lib, q.code));
    PrefixTells("name:", Normalized(lib, Shown(p.name)), Normalized(lib, Shown(q.name)));
  }

  /** Without them: name and phone of clients, name and kind of transaction categories, each tell. */
  lemma NamesTell(lib: Lib, p: Prepared, q: Prepared)
    ensures var n, n' := Normalized(lib, Shown(p.name)), Normalized(lib, Shown(q.name));
            var f, f' := Normalized(lib, Shown(p.phone)), Normalized(lib, Shown(q.phone));
            (Text(p.taxId) == "" && Text(q.taxId) == "" ==>
               (n == n' ==> (Identity(lib, Clients, p) == Identity(lib, Clients, q) <==> f == f'))
               && (f == f' ==> (Identity(lib, Clients, p) == Identity(lib, Clients, q) <==> n == n')))
            && (n == n' ==> (Identity(lib, TransactionCategories, p) == Identity(lib, TransactionCategories, q) <==> p.kind == q.kind))
            && (p.kind == q.kind ==> (Identity(lib, TransactionCategories, p) == Identity(lib, TransactionCategories, q) <==> n == n'))
  {
    var n, n' := Normalized(lib, Shown(p.name)), Normalized(lib, Shown(q.name));
    PartsTell("name:", n, n', "|phone:", Normalized(lib, Shown(p.phone)), Normalized(lib, Shown(q.phone)));
    PartsTell("name:", n, n', "|type:", p.kind, q.kind);
  }

  /** Full name and e-mail address of employees, name and category of products. */
  lemma PeopleAndProductsTell(lib: Lib, p: Prepared, q: Prepared)
    ensures var n, n' := Normalized(lib, Shown(p.first) + " " + Shown(p.last)), Normalized(lib, Shown(q.first) + " " + Shown(q.last));
            var m, m' := Normalized(lib, Shown(p.email)), Normalized(lib, Shown(q.email));
            Text(p.taxId) == "" && Text(q.taxId) == "" ==>
              (n == n' ==> (Identity(lib, Employees, p) == Identity(lib, Employees, q) <==> m == m'))
              && (m == m' ==> (Identity(lib, Employees, p) == Identity(lib, Employees, q) <==> n == n'))
    ensures var n, n' := Normalized(lib, Shown(p.name)), Normalized(lib, Shown(q.name));
            var c, c' := ShowId(lib, p.category), ShowId(lib, q.category);
            Text(p.sku) == "" && Text(q.sku) == "" ==>
              (n == n' ==> (Identity(lib, Products, p) == Identity(lib, Products, q) <==> c == c'))
              && (c == c' ==> (Identity(lib, Products, p) == Identity(lib, Products, q) <==> n == n'))
  {
    PartsTell("person:", Normalized(lib, Shown(p.first) + " " + Shown(p.last)), Normalized(lib, Shown(q.first) + " " + Shown(q.last)),
              "|email:", Normalized(lib, Shown(p.email)), Normalized(lib, Shown(q.email)));
    PartsTell("product:", Normalized(lib, Shown(p.name)), Normalized(lib, Shown(q.name)),
              "|category:", ShowId(lib, p.category), ShowId(lib, q.category));
  }

  /** Name, unit and package size of supplies. */
  lemma SuppliesTell(lib: Lib, p: Prepared, q: Prepared)
    ensures var n, n' := Normalized(lib, Shown(p.name)), Normalized(lib, Shown(q.name));
            var z, z' := ShowSize(lib, p.size), ShowSize(lib, q.size);
            var same := Identity(lib, Supplies, p) == Identity(lib, Supplies, q);
            (n == n' && p.unit == q.unit ==> (same <==> z == z'))
            && (n == n' && z == z' ==> (same <==> p.unit == q.unit))
            && (p.unit == q.unit && z == z' ==> (same <==> n == n'))
  {
    var n, n' := Normalized(lib, Shown(p.name)), Normalized(lib, Shown(q.name));
    var z, z' := ShowSize(lib, p.size), ShowSize(lib, q.size);
    var a, b := "supply:" + n + "|unit:" + p.unit, "supply:" + n' + "|unit:" + q.unit;
    PartsTell("supply:", n, n', "|unit:", p.unit, q.unit);
    PartsTell("", a, b, "|size:", z, z');
    assert "" + a + "|size:" + z == a + "|size:" + z && "" + b + "|size:" + z' == b + "|size:" + z';
  }

  /** Products stored without a SKU are told by name and category, as those in a file. */
  lemma StoredProductsTell(lib: Lib, p: Prepared, r: Stored)
    requires Text(p.sku) == "" && (r.sku == None || r.sku == Some(""))
    ensures var n, n' := Normalized(lib, Shown(p.name)), Normalized(lib, r.name);
            var c, c' := ShowId(lib, p.category), ShowId(lib, r.category);
            (n == n' ==> (Identity(lib, Products, p) == StoredIdentity(lib, Products, r) <==> c == c'))
            && (c == c' ==> (Identity(lib, Products, p) == StoredIdentity(lib, Products, r) <==> n == n'))
  {
    PartsTell("product:", Normalized(lib, Shown(p.name)), Normalized(lib, r.name),
              "|category:", ShowId(lib, p.category), ShowId(lib, r.category));
  }
}
