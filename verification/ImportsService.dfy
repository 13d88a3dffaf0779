/**
 The import service in the form the code has: the validation loop over rows, the creation
 loop with its sequence numbers, and the two halves of an import.
 */
module ImportsService {
  import opened Options
  import opened Imports

  class ImportsService {
    var tables: map<Slot, seq<Stored>>
    var categories: map<Id, Categories>
    var records: map<RecordKey, Record>
    var phases: map<Client, Upload>
    ghost var log: seq<Written>

    ghost function State(): State
      reads this
    {
      Imports.State(tables, categories, records, phases, log)
    }

    constructor ()
      ensures State() == Imports.State(map[], map[], map[], map[], [])
    {
      tables, categories, records, phases, log := map[], map[], map[], map[], [];
    }

    /** The loop: every row is checked, and its identity looked up among those seen so far. */
    method Prepare(lib: Lib, slot: Slot, rows: seq<FileRow>) returns (prepared: seq<Prepared>, errors: nat)
      ensures prepared == PrepareAll(lib, Known(State(), slot.org), rows)
      ensures errors == 0 <==> FileOk(lib, Known(State(), slot.org), slot.resource, Table(State(), slot), rows)
    {
      var known := if slot.org in categories then categories[slot.org] else map[];
      var table := if slot in tables then tables[slot] else [];
      var res := slot.resource;
      var existing := Identities(lib, res, table);
      var seen := existing;
      prepared, errors := [], 0;
      for n := 0 to |rows|
        invariant prepared == PrepareAll(lib, known, rows)[..n]
        invariant seen == existing + Members(IdentitiesOf(lib, known, res, rows)[..n])
        invariant errors == 0 <==> RowsOk(lib, known, res, rows[..n]) && Unseen(existing, IdentitiesOf(lib, known, res, rows)[..n])
      {
        ghost var ids := IdentitiesOf(lib, known, res, rows);
        TakeMore(ids, n);
        TakeMore(rows, n);
        TakeMore(PrepareAll(lib, known, rows), n);
        OneMore(existing, ids[..n], ids[n]);
        OneMoreRow(lib, known, res, rows[..n], rows[n]);
        var bad: nat, current;
        current, seen, bad := CheckRow(lib, known, res, rows[n], seen);
        errors := errors + bad;
        prepared := prepared + [current];
      }
      assert rows[..|rows|] == rows && IdentitiesOf(lib, known, res, rows)[..|rows|] == IdentitiesOf(lib, known, res, rows);
    }

    static lemma TakeMore<T>(s: seq<T>, n: nat)
      requires n < |s|
      ensures s[..n + 1] == s[..n] + [s[n]]
    {}

    static function Members(ids: seq<string>): set<string> {
      set x | x in ids
    }

    static lemma OneMore(existing: set<string>, ids: seq<string>, id: string)
      ensures Unseen(existing, ids + [id]) <==> Unseen(existing, ids) && id !in existing + Members(ids)
      ensures existing + Members(ids + [id]) == existing + Members(ids) + {id}
    {
      var all := ids + [id];
      if Unseen(existing, all) {
        assert all[|ids|] == id;
        forall i, j | 0 <= i < j < |ids| ensures ids[i] != ids[j] {
          assert all[i] != all[j];
        }
        forall i | 0 <= i < |ids| ensures ids[i] !in existing && ids[i] != id {
          assert all[i] !in existing && all[i] != all[|ids|];
        }
      }
    }

    static lemma OneMoreRow(lib: Lib, known: Categories, res: Resource, rows: seq<FileRow>, row: FileRow)
      ensures RowsOk(lib, known, res, rows + [row]) <==> RowsOk(lib, known, res, rows) && RowOk(lib, known, res, row)
    {
      var all := rows + [row];
      if RowsOk(lib, known, res, all) {
        assert all[|rows|] == row;
        forall i | 0 <= i < |rows| ensures RowOk(lib, known, res, rows[i]) {
          assert all[i] == rows[i];
        }
      }
    }

    /** One turn: `seen` takes the row's identity whether or not it was there. */
    static method CheckRow(lib: Lib, known: Categories, res: Resource, row: FileRow, seen: set<string>)
      returns (current: Prepared, now: set<string>, bad: nat)
      ensures current == PrepareRow(lib, known, row) && now == seen + {IdentityOf(lib, known, res, row)}
      ensures bad == 0 <==> RowOk(lib, known, res, row) && IdentityOf(lib, known, res, row) !in seen
    {
      bad := 0;
      if !RowOk(lib, known, res, row) {
        bad := bad + 1;
      }
      current := PrepareRow(lib, known, row);
      var identity := Identity(lib, res, current);
      if identity in seen {
        bad := bad + 1;
      }
      now := seen + {identity};
    }

    /** One turn of the creation loop: a product without a SKU takes the next number of its category. */
    static method CreateRow(lib: Lib, res: Resource, table: seq<Stored>, m: Making, row: Prepared) returns (r: Making)
      ensures r == MakeOne(lib, res, table, m, row)
    {
      if res == Products {
        r := CreateProduct(lib, table, m, row);
      } else {
        AnySku(lib, res, row, "", SkuFor(lib, table, m, row));
        r := Append(lib, res, m.created, row, "", m.sequences);
      }
    }

    static lemma AnySku(lib: Lib, res: Resource, row: Prepared, a: string, b: string)
      requires res != Products
      ensures Store(lib, res, row, a) == Store(lib, res, row, b)
    {}

    static method CreateProduct(lib: Lib, table: seq<Stored>, m: Making, row: Prepared) returns (r: Making)
      ensures r == MakeOne(lib, Products, table, m, row)
    {
      var sku := ChooseSku(lib, table, m, row);
      var sequences := Advance(table, m, row);
      r := Append(lib, Products, m.created, row, sku, sequences);
    }

    /** A row without a SKU takes a number, and the next one of its category is one higher. */
    static method Advance(table: seq<Stored>, m: Making, row: Prepared) returns (sequences: map<Option<Id>, nat>)
      ensures sequences == NextSequences(Products, table, m, row)
    {
      sequences := m.sequences;
      if Text(row.sku) == "" {
        var next := NextFor(table, m, row.category);
        sequences := sequences[row.category := next + 1];
      }
    }

    static method ChooseSku(lib: Lib, table: seq<Stored>, m: Making, row: Prepared) returns (sku: string)
      ensures sku == SkuFor(lib, table, m, row)
    {
      sku := Text(row.sku);
      if sku == "" {
        var next := NextFor(table, m, row.category);
        sku := lib.makeSku(row.categoryCode, Text(row.name), next);
      }
    }

    static method NextFor(table: seq<Stored>, m: Making, category: Option<Id>) returns (next: nat)
      ensures next == NextNumber(table, m, category)
    {
      if category in m.sequences {
        next := m.sequences[category];
      } else {
        next := CountIn(table + m.created, category) + 1;
      }
    }

    method CreateRows(lib: Lib, slot: Slot, rows: seq<Prepared>) returns (created: seq<Stored>)
      ensures created == MakeAll(lib, slot.resource, Table(State(), slot), rows).created
    {
      var table := if slot in tables then tables[slot] else [];
      var making := Making([], map[]);
      for n := 0 to |rows|
        invariant making == MakeAll(lib, slot.resource, table, rows[..n])
      {
        assert rows[..n + 1][..n] == rows[..n];
        making := CreateRow(lib, slot.resource, table, making, rows[n]);
      }
      assert rows[..|rows|] == rows;
      created := making.created;
    }

    method BeginImport(lib: Lib, c: Client, q: Upload) returns (reply: Reply)
      requires c !in phases
      modifies this`phases
      ensures reply == BeginReply(lib, old(State()), q)
      ensures State() == Begin(lib, old(State()), c, q)
    {
      if q.expected.Some? && q.expected.value != q.hash {
        return Conflict;
      }
      if q.key.None? || |q.key.value| < 8 || |q.key.value| > 100 {
        return BadRequest;
      }
      var key := RecordKey(q.slot, q.key.value);
      if key in records {
        if records[key].hash != q.hash {
          return Conflict;
        }
        return Repeated(records[key].createdRows);
      }
      var prepared, errors := Prepare(lib, q.slot, q.rows);
      if errors != 0 {
        return BadRequest;
      }
      phases := phases[c := q];
      reply := Waiting;
    }

    /** The transaction under its advisory lock; a unique violation undoes it. */
    method Transact(lib: Lib, q: Upload) returns (reply: Reply)
      requires q.key.Some?
      modifies this`tables, this`records, this`log
      ensures reply == CommitReply(lib, old(State()), q)
      ensures State() == if reply.Created? then Insert(lib, old(State()), q) else old(State())
    {
      var key := RecordKey(q.slot, q.key.value);
      if key in records {
        if records[key].hash != q.hash {
          return Conflict;
        }
        return Repeated(records[key].createdRows);
      }
      var rows, errors := Prepare(lib, q.slot, q.rows);
      if errors != 0 {
        return BadRequest;
      }
      var created := CreateRows(lib, q.slot, rows);
      if !SkusFree(Imports.State(tables, map[], map[], map[], []), q.slot, created) {
        return Failed;
      }
      Write(q, key, rows, created);
      reply := Reply.Created(|created|);
    }

    method CommitImport(lib: Lib, c: Client) returns (reply: Reply)
      requires c in phases && phases[c].key.Some?
      modifies this
      ensures reply == CommitReply(lib, old(State()), old(phases)[c])
      ensures State() == Commit(lib, old(State()), c)
    {
      var q := phases[c];
      CommitIgnoresPhases(lib, State(), c);
      phases := phases - {c};
      reply := Transact(lib, q);
    }

    static lemma CommitIgnoresPhases(lib: Lib, s: State, c: Client)
      requires c in s.phases && s.phases[c].key.Some?
      ensures CommitReply(lib, s.(phases := s.phases - {c}), s.phases[c]) == CommitReply(lib, s, s.phases[c])
    {
      SameTables(lib, s, s.(phases := s.phases - {c}), s.phases[c]);
    }

    static lemma SameTables(lib: Lib, s: State, t: State, q: Upload)
      requires t.tables == s.tables && t.categories == s.categories
      ensures UploadOk(lib, t, q) == UploadOk(lib, s, q) && RowsFor(lib, t, q) == RowsFor(lib, s, q)
      ensures forall rows :: SkusFree(t, q.slot, rows) == SkusFree(s, q.slot, rows)
    {
      assert Table(t, q.slot) == Table(s, q.slot) && Known(t, q.slot.org) == Known(s, q.slot.org);
    }

    method Write(q: Upload, key: RecordKey, prepared: seq<Prepared>, created: seq<Stored>)
      modifies this`tables, this`records, this`log
      ensures tables == old(tables)[q.slot := Table(old(State()), q.slot) + created]
      ensures records == old(records)[key := Record(q.hash, |q.rows|)]
      ensures log == old(log) + [Written(key, q.hash, prepared, created)]
    {
      tables := tables[q.slot := (if q.slot in tables then tables[q.slot] else []) + created];
      records := records[key := Record(q.hash, |q.rows|)];
      log := log + [Written(key, q.hash, prepared, created)];
    }
  }
}
