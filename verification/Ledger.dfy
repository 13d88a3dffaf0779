/**
 The bank ledger and its optimistic concurrency protocol
 (src/modules/financial-transactions/financial-transactions.service.ts,
  src/modules/bank-accounts/bank-accounts.repository.ts).

 A request is a sequence of atomic database steps: it reads, and later it commits
 with an update that names the version it read. Other requests run in between.
 The conditional update, the record written or deleted with it and the commit of
 the transaction are one step, because the update holds the account row until then.
 */
module Ledger {
  import opened Options
  import opened Sums

  type Id = nat
  type Client = nat

  datatype Status = ACTIVE | FROZEN | INACTIVE
  datatype Kind = CREDIT | DEBIT
  datatype Operation = SALE | PURCHASE | REFUND | TRANSFER | ADJUSTMENT | EXPENSE

  datatype Account = Account(balance: real, version: int)
  datatype Params = Params(account: Id, kind: Kind, amount: real, operation: Operation)
  datatype Record = Record(id: Id, params: Params, before: real, after: real)

  /** `used` holds every record id ever inserted: a uuid is never issued twice. */
  datatype Db = Db(accounts: map<Id, Account>, records: map<Id, Record>, used: set<Id>)

  // ----- Account arithmetic -----

  function Opposite(k: Kind): Kind {
    if k.CREDIT? then DEBIT else CREDIT
  }

  function Signed(k: Kind, amount: real): real {
    if k.CREDIT? then amount else -amount
  }

  /** The balance after one posting, or None where the entity throws. */
  function Posted(balance: real, k: Kind, amount: real): (r: Option<real>)
    ensures r.Some? ==> r.value == balance + Signed(k, amount)
    ensures r.Some? && balance >= 0.0 ==> r.value >= 0.0
    ensures r.Some? <==> amount >= 0.0 && (k.DEBIT? ==> balance >= amount)
  {
    if amount < 0.0 then None
    else if k.CREDIT? then Some(balance + amount)
    else if balance < amount then None
    else Some(balance - amount)
  }

  // ----- One request run alone -----

  /** What a request commits. */
  datatype Op = Open(account: Id) | Create(params: Params, id: Id) | Remove(record: Record)

  function OpAccount(op: Op): Id {
    match op
    case Open(a) => a
    case Create(p, _) => p.account
    case Remove(r) => r.params.account
  }

  function Write(db: Db, a: Id, balance: real): Db
    requires a in db.accounts
  {
    db.(accounts := db.accounts[a := Account(balance, db.accounts[a].version + 1)])
  }

  function InsertRecord(db: Db, r: Record): Db {
    db.(records := db.records[r.id := r], used := db.used + {r.id})
  }

  /** The whole request as one indivisible action, or None where it is refused. */
  function Serial(db: Db, op: Op): Option<Db> {
    match op
    case Open(a) =>
      if a in db.accounts then None else Some(db.(accounts := db.accounts[a := Account(0.0, 1)]))
    case Create(p, id) =>
      if p.account !in db.accounts || id in db.used then None
      else
        var before := db.accounts[p.account].balance;
        (match Posted(before, p.kind, p.amount)
         case None => None
         case Some(after) => Some(InsertRecord(Write(db, p.account, after), Record(id, p, before, after))))
    case Remove(r) =>
      if r.id !in db.records || db.records[r.id] != r || r.params.operation != ADJUSTMENT
         || r.params.account !in db.accounts then None
      else
        (match Posted(db.accounts[r.params.account].balance, Opposite(r.params.kind), r.params.amount)
         case None => None
         case Some(after) =>
           var written := Write(db, r.params.account, after);
           Some(written.(records := written.records - {r.id})))
  }

  function Replay(db: Db, log: seq<Op>): Option<Db> {
    if |log| == 0 then Some(db)
    else
      match Replay(db, log[..|log| - 1])
      case None => None
      case Some(mid) => Serial(mid, log[|log| - 1])
  }

  // ----- Interleaved requests -----

  datatype Phase =
    | Creating(params: Params, read: Account)
    | Found(record: Record)
    | Removing(record: Record, read: Account)

  datatype State = State(db: Db, status: map<Id, Status>, phases: map<Client, Phase>, log: seq<Op>)

  datatype Event =
    | BeginCreate(client: Client, params: Params)
    | CommitCreate(client: Client, id: Id)
    | ReadRecord(client: Client, id: Id)
    | ReadAccount(client: Client)
    | CommitRemove(client: Client)
    | OpenAccount(account: Id)
    | ChangeStatus(account: Id, status: Status)

  function Init(db: Db, status: map<Id, Status>): State {
    State(db, status, map[], [])
  }

  predicate Loadable(s: State, a: Id) {
    a in s.db.accounts && a in s.status && s.status[a] == ACTIVE
  }

  function Leave(s: State, c: Client): State {
    s.(phases := s.phases - {c})
  }

  /** WHERE id = a AND version = v. */
  predicate VersionMatches(db: Db, a: Id, v: int) {
    a in db.accounts && db.accounts[a].version == v
  }

  function StepBeginCreate(s: State, c: Client, p: Params): State {
    if c !in s.phases && Loadable(s, p.account)
       && Posted(s.db.accounts[p.account].balance, p.kind, p.amount).Some?
    then s.(phases := s.phases[c := Creating(p, s.db.accounts[p.account])])
    else s
  }

  function StepCommitCreate(s: State, c: Client, id: Id): State {
    if c !in s.phases || !s.phases[c].Creating? then s
    else
      var Creating(p, read) := s.phases[c];
      var after := Posted(read.balance, p.kind, p.amount);
      if after.None? || !VersionMatches(s.db, p.account, read.version) || id in s.db.used then Leave(s, c)
      else
        var db := InsertRecord(Write(s.db, p.account, after.value), Record(id, p, read.balance, after.value));
        Leave(s, c).(db := db, log := s.log + [Create(p, id)])
  }

  function StepReadRecord(s: State, c: Client, id: Id): State {
    if c !in s.phases && id in s.db.records && s.db.records[id].params.operation == ADJUSTMENT
    then s.(phases := s.phases[c := Found(s.db.records[id])])
    else s
  }

  function StepReadAccount(s: State, c: Client): State {
    if c !in s.phases || !s.phases[c].Found? then s
    else
      var r := s.phases[c].record;
      if Loadable(s, r.params.account)
         && Posted(s.db.accounts[r.params.account].balance, Opposite(r.params.kind), r.params.amount).Some?
      then s.(phases := s.phases[c := Removing(r, s.db.accounts[r.params.account])])
      else Leave(s, c)
  }

  function StepCommitRemove(s: State, c: Client): State {
    if c !in s.phases || !s.phases[c].Removing? then s
    else
      var Removing(r, read) := s.phases[c];
      var after := Posted(read.balance, Opposite(r.params.kind), r.params.amount);
      if after.None? || !VersionMatches(s.db, r.params.account, read.version) || r.id !in s.db.records then Leave(s, c)
      else
        var db := Write(s.db, r.params.account, after.value);
        Leave(s, c).(db := db.(records := db.records - {r.id}), log := s.log + [Remove(r)])
  }

  function Step(s: State, e: Event): State {
    match e
    case BeginCreate(c, p) => StepBeginCreate(s, c, p)
    case CommitCreate(c, id) => StepCommitCreate(s, c, id)
    case ReadRecord(c, id) => StepReadRecord(s, c, id)
    case ReadAccount(c) => StepReadAccount(s, c)
    case CommitRemove(c) => StepCommitRemove(s, c)
    case OpenAccount(a) =>
      if a in s.db.accounts then s
      else State(s.db.(accounts := s.db.accounts[a := Account(0.0, 1)]), s.status[a := ACTIVE], s.phases, s.log + [Open(a)])
    case ChangeStatus(a, st) =>
      if a in s.db.accounts then s.(status := s.status[a := st]) else s
  }

  function Run(s: State, es: seq<Event>): State {
    if |es| == 0 then s else Step(Run(s, es[..|es| - 1]), es[|es| - 1])
  }

  // ----- Every interleaving is a serial execution -----

  predicate Fresh(db: Db, a: Id, read: Account) {
    a in db.accounts
    && read.version <= db.accounts[a].version
    && (read.version == db.accounts[a].version ==> read == db.accounts[a])
  }

  predicate KnownRecord(db: Db, r: Record) {
    r.id in db.used && r.params.operation == ADJUSTMENT
    && (r.id in db.records ==> db.records[r.id] == r)
  }

  predicate PhaseOk(db: Db, ph: Phase) {
    match ph
    case Creating(p, read) => Fresh(db, p.account, read) && Posted(read.balance, p.kind, p.amount).Some?
    case Found(r) => KnownRecord(db, r)
    case Removing(r, read) =>
      KnownRecord(db, r) && Fresh(db, r.params.account, read)
      && Posted(read.balance, Opposite(r.params.kind), r.params.amount).Some?
  }

  predicate DbOk(db: Db) {
    forall id :: id in db.records ==> id in db.used && db.records[id].id == id
  }

  predicate Inv(start: Db, s: State) {
    DbOk(s.db)
    && Replay(start, s.log) == Some(s.db)
    && forall c :: c in s.phases ==> PhaseOk(s.db, s.phases[c])
  }

  lemma ReplayPush(start: Db, log: seq<Op>, op: Op, mid: Db)
    requires Replay(start, log) == Some(mid)
    ensures Replay(start, log + [op]) == Serial(mid, op)
  {
    assert (log + [op])[..|log|] == log;
  }

  /** A read taken earlier is still fresh after any commit: the version moved or nothing did. */
  lemma PhasesSurvive(before: Db, op: Op, after: Db, ph: Phase)
    requires DbOk(before) && Serial(before, op) == Some(after) && PhaseOk(before, ph)
    ensures PhaseOk(after, ph)
  {}

  lemma CommitIsSerial(start: Db, s: State, op: Op, after: State)
    requires Inv(start, s)
    requires Serial(s.db, op) == Some(after.db) && after.log == s.log + [op]
    requires forall c :: c in after.phases ==> c in s.phases && after.phases[c] == s.phases[c]
    ensures Inv(start, after)
  {
    ReplayPush(start, s.log, op, s.db);
    forall c | c in after.phases
      ensures PhaseOk(after.db, after.phases[c])
    {
      PhasesSurvive(s.db, op, after.db, s.phases[c]);
    }
  }

  /** One step of any client keeps the ledger equal to the serial replay of its commits. */
  lemma StepPreserves(start: Db, s: State, e: Event)
    requires Inv(start, s)
    ensures Inv(start, Step(s, e))
  {
    var after := Step(s, e);
    if after.log != s.log {
      CommitIsSerial(start, s, after.log[|s.log|], after);
    }
  }

  /**
   Serializability: whatever the interleaving of reads and conditional commits, the
   accounts and records equal those of the committed requests run one at a time, each
   as a single indivisible action, in commit order.
   */
  lemma {:induction false} RunSerializable(start: Db, status: map<Id, Status>, es: seq<Event>)
    requires DbOk(start)
    ensures Inv(start, Run(Init(start, status), es))
    ensures Replay(start, Run(Init(start, status), es).log) == Some(Run(Init(start, status), es).db)
  {
    if |es| > 0 {
      RunSerializable(start, status, es[..|es| - 1]);
      StepPreserves(start, Run(Init(start, status), es[..|es| - 1]), es[|es| - 1]);
    }
  }

  // ----- What every run therefore keeps -----

  function Delta(a: Id): Op -> real {
    (op: Op) =>
      match op
      case Open(_) => 0.0
      case Create(p, _) => if p.account == a then Signed(p.kind, p.amount) else 0.0
      case Remove(r) => if r.params.account == a then -Signed(r.params.kind, r.params.amount) else 0.0
  }

  function Commits(log: seq<Op>, a: Id): nat {
    if |log| == 0 then 0
    else
      var last := log[|log| - 1];
      Commits(log[..|log| - 1], a) + if !last.Open? && OpAccount(last) == a then 1 else 0
  }

  function SignedOn(a: Id): Record -> real {
    (r: Record) => if r.params.account == a then Signed(r.params.kind, r.params.amount) else 0.0
  }

  function Opening(db: Db, a: Id): Account {
    if a in db.accounts then db.accounts[a] else Account(0.0, 1)
  }

  /** No update is lost: a balance is its opening plus every committed credit minus every debit; a version counts commits. */
  lemma {:induction false} NoUpdateLost(start: Db, log: seq<Op>, db: Db, a: Id)
    requires Replay(start, log) == Some(db)
    ensures Opening(db, a).balance == Opening(start, a).balance + Sum(log, Delta(a))
    ensures Opening(db, a).version == Opening(start, a).version + Commits(log, a)
    ensures a in start.accounts ==> a in db.accounts
  {
    if |log| > 0 {
      NoUpdateLost(start, log[..|log| - 1], Replay(start, log[..|log| - 1]).value, a);
    }
  }

  lemma {:induction false} DbOkKept(start: Db, log: seq<Op>, db: Db)
    requires Replay(start, log) == Some(db) && DbOk(start)
    ensures DbOk(db)
  {
    if |log| > 0 {
      DbOkKept(start, log[..|log| - 1], Replay(start, log[..|log| - 1]).value);
    }
  }

  lemma OpMovesBalance(mid: Db, op: Op, db: Db, a: Id)
    requires Serial(mid, op) == Some(db)
    ensures Opening(db, a).balance == Opening(mid, a).balance + Delta(a)(op)
  {}

  lemma OpMovesRecords(mid: Db, op: Op, db: Db, a: Id)
    requires Serial(mid, op) == Some(db) && DbOk(mid)
    ensures Total(db.records, SignedOn(a)) == Total(mid.records, SignedOn(a)) + Delta(a)(op)
  {
    match op
    case Open(_) =>
    case Create(p, id) =>
      CreateRecords(mid, p, id, db);
      RecordAdded(mid.records, id, db.records[id], a);
    case Remove(r) =>
      RemoveRecords(mid, r, db);
      RecordDropped(mid.records, r.id, a);
  }

  lemma CreateRecords(mid: Db, p: Params, id: Id, db: Db)
    requires Serial(mid, Create(p, id)) == Some(db) && DbOk(mid)
    ensures id !in mid.records && id in db.records && db.records[id].params == p && db.records == mid.records[id := db.records[id]]
  {}

  lemma RemoveRecords(mid: Db, r: Record, db: Db)
    requires Serial(mid, Remove(r)) == Some(db)
    ensures r.id in mid.records && mid.records[r.id] == r && db.records == mid.records - {r.id}
  {}

  lemma RecordAdded(records: map<Id, Record>, id: Id, r: Record, a: Id)
    requires id !in records
    ensures Total(records[id := r], SignedOn(a)) == Total(records, SignedOn(a)) + SignedOn(a)(r)
  {
    TotalInsert(records, id, r, SignedOn(a));
  }

  lemma RecordDropped(records: map<Id, Record>, id: Id, a: Id)
    requires id in records
    ensures Total(records - {id}, SignedOn(a)) == Total(records, SignedOn(a)) - SignedOn(a)(records[id])
  {
    TotalRemove(records, id, SignedOn(a));
  }

  lemma OpExplained(mid: Db, op: Op, db: Db, a: Id)
    requires Serial(mid, op) == Some(db) && DbOk(mid)
    ensures Opening(db, a).balance - Total(db.records, SignedOn(a))
         == Opening(mid, a).balance - Total(mid.records, SignedOn(a))
  {
    OpMovesBalance(mid, op, db, a);
    OpMovesRecords(mid, op, db, a);
  }

  /** A balance moves exactly with the signed sum of the records that exist, removals included. */
  lemma {:induction false} RecordsExplainBalance(start: Db, log: seq<Op>, db: Db, a: Id)
    requires Replay(start, log) == Some(db) && DbOk(start)
    ensures Opening(db, a).balance - Total(db.records, SignedOn(a))
         == Opening(start, a).balance - Total(start.records, SignedOn(a))
  {
    if |log| > 0 {
      var mid := Replay(start, log[..|log| - 1]).value;
      RecordsExplainBalance(start, log[..|log| - 1], mid, a);
      DbOkKept(start, log[..|log| - 1], mid);
      OpExplained(mid, log[|log| - 1], db, a);
    }
  }

  lemma {:induction false} NeverNegative(start: Db, log: seq<Op>, db: Db)
    requires Replay(start, log) == Some(db)
    requires forall a :: a in start.accounts ==> start.accounts[a].balance >= 0.0
    ensures forall a :: a in db.accounts ==> db.accounts[a].balance >= 0.0
  {
    if |log| > 0 {
      NeverNegative(start, log[..|log| - 1], Replay(start, log[..|log| - 1]).value);
    }
  }

  lemma {:induction false} ReplayPrefix(start: Db, log: seq<Op>, i: nat)
    requires Replay(start, log).Some? && i <= |log|
    ensures Replay(start, log[..i]).Some?
  {
    if i == |log| {
      assert log[..i] == log;
    } else {
      ReplayPrefix(start, log[..|log| - 1], i);
      assert log[..|log| - 1][..i] == log[..i];
    }
  }

  /** Once a record's id has been issued and its row is gone, the row never returns. */
  lemma {:induction false} GoneStaysGone(start: Db, log: seq<Op>, i: nat, id: Id)
    requires Replay(start, log).Some? && i <= |log|
    requires Replay(start, log[..i]).Some?
    requires id in Replay(start, log[..i]).value.used && id !in Replay(start, log[..i]).value.records
    ensures id in Replay(start, log).value.used && id !in Replay(start, log).value.records
  {
    if i == |log| {
      assert log[..i] == log;
    } else {
      assert log[..|log| - 1][..i] == log[..i];
      GoneStaysGone(start, log[..|log| - 1], i, id);
    }
  }

  /** A removal finds its record and leaves its id used and gone. */
  lemma RemovalLeaves(start: Db, log: seq<Op>, i: nat)
    requires DbOk(start) && Replay(start, log).Some? && i < |log| && log[i].Remove?
    ensures Replay(start, log[..i]).Some? && log[i].record.id in Replay(start, log[..i]).value.records
    ensures Replay(start, log[..i + 1]).Some?
    ensures var after := Replay(start, log[..i + 1]).value;
            log[i].record.id in after.used && log[i].record.id !in after.records
  {
    ReplayPrefix(start, log, i + 1);
    ReplayPrefix(start, log, i);
    assert log[..i + 1][..i] == log[..i];
    DbOkKept(start, log[..i], Replay(start, log[..i]).value);
  }

  lemma RemovedOnce(start: Db, log: seq<Op>, i: nat, j: nat)
    requires DbOk(start) && Replay(start, log).Some? && i < j < |log| && log[i].Remove? && log[j].Remove?
    ensures log[i].record.id != log[j].record.id
  {
    RemovalLeaves(start, log, i);
    RemovalLeaves(start, log, j);
    assert log[..j][..i + 1] == log[..i + 1];
    GoneStaysGone(start, log[..j], i + 1, log[i].record.id);
  }

  /** Each adjustment is reversed at most once, however many removals of it overlap. */
  lemma ReversedAtMostOnce(start: Db, status: map<Id, Status>, es: seq<Event>, i: nat, j: nat)
    requires DbOk(start)
    requires var log := Run(Init(start, status), es).log;
             i < j < |log| && log[i].Remove? && log[j].Remove?
    ensures var log := Run(Init(start, status), es).log;
            log[i].record.id != log[j].record.id
  {
    RunSerializable(start, status, es);
    RemovedOnce(start, Run(Init(start, status), es).log, i, j);
  }

  lemma {:induction false} UntouchedBetween(start: Db, log: seq<Op>, i: nat, a: Id)
    requires Replay(start, log).Some? && i <= |log|
    requires Replay(start, log[..i]).Some?
    requires forall k :: i <= k < |log| ==> OpAccount(log[k]) != a
    ensures Opening(Replay(start, log).value, a) == Opening(Replay(start, log[..i]).value, a)
  {
    if i == |log| {
      assert log[..i] == log;
    } else {
      assert log[..|log| - 1][..i] == log[..i];
      UntouchedBetween(start, log[..|log| - 1], i, a);
    }
  }

  lemma {:induction false} RecordKept(start: Db, log: seq<Op>, i: nat, id: Id)
    requires Replay(start, log).Some? && i <= |log| && DbOk(start)
    requires Replay(start, log[..i]).Some? && id in Replay(start, log[..i]).value.records
    requires id in Replay(start, log).value.records
    ensures Replay(start, log).value.records[id] == Replay(start, log[..i]).value.records[id]
  {
    if i == |log| {
      assert log[..i] == log;
    } else {
      assert log[..|log| - 1][..i] == log[..i];
      var front := log[..|log| - 1];
      DbOkKept(start, log[..i], Replay(start, log[..i]).value);
      UsedStaysUsed(start, front, i, id);
      OpKeepsRecord(Replay(start, front).value, log[|log| - 1], Replay(start, log).value, id);
      RecordKept(start, front, i, id);
    }
  }

  lemma OpKeepsRecord(mid: Db, op: Op, db: Db, id: Id)
    requires Serial(mid, op) == Some(db) && id in mid.used && id in db.records
    ensures id in mid.records && db.records[id] == mid.records[id]
  {}

  lemma {:induction false} UsedStaysUsed(start: Db, log: seq<Op>, i: nat, id: Id)
    requires Replay(start, log).Some? && i <= |log|
    requires Replay(start, log[..i]).Some? && id in Replay(start, log[..i]).value.used
    ensures id in Replay(start, log).value.used
  {
    if i == |log| {
      assert log[..i] == log;
    } else {
      assert log[..|log| - 1][..i] == log[..i];
      UsedStaysUsed(start, log[..|log| - 1], i, id);
    }
  }

  /** The record a creation wrote, while it exists, tells the balance just before and just after that commit. */
  lemma RecordTellsBalances(start: Db, log: seq<Op>, i: nat)
    requires Replay(start, log).Some? && DbOk(start)
    requires i < |log| && log[i].Create? && log[i].id in Replay(start, log).value.records
    ensures Replay(start, log[..i]).Some? && Replay(start, log[..i + 1]).Some?
    ensures var r := Replay(start, log).value.records[log[i].id];
            r.before == Opening(Replay(start, log[..i]).value, log[i].params.account).balance
            && r.after == Opening(Replay(start, log[..i + 1]).value, log[i].params.account).balance
  {
    ReplayPrefix(start, log, i + 1);
    ReplayPrefix(start, log, i);
    assert log[..i + 1][..i] == log[..i];
    RecordKept(start, log, i + 1, log[i].id);
  }

  /**
   The chain of records: two creations on one account with no commit on it between them
   leave records of which the later starts where the earlier ended, and the later was
   read at the version the earlier wrote.
   */
  lemma RecordsChain(start: Db, status: map<Id, Status>, es: seq<Event>, i: nat, j: nat)
    requires DbOk(start)
    requires var s := Run(Init(start, status), es);
             i < j < |s.log| && s.log[i].Create? && s.log[j].Create?
             && s.log[i].params.account == s.log[j].params.account
             && (forall k :: i < k < j ==> OpAccount(s.log[k]) != s.log[i].params.account)
             && s.log[i].id in s.db.records && s.log[j].id in s.db.records
    ensures var s := Run(Init(start, status), es);
            s.db.records[s.log[j].id].before == s.db.records[s.log[i].id].after
            && Replay(start, s.log[..i + 1]).Some? && Replay(start, s.log[..j]).Some?
            && Opening(Replay(start, s.log[..j]).value, s.log[i].params.account)
               == Opening(Replay(start, s.log[..i + 1]).value, s.log[i].params.account)
  {
    RunSerializable(start, status, es);
    var log := Run(Init(start, status), es).log;
    var a := log[i].params.account;
    RecordTellsBalances(start, log, i);
    RecordTellsBalances(start, log, j);
    assert log[..j][..i + 1] == log[..i + 1];
    UntouchedBetween(start, log[..j], i + 1, a);
  }

  /** Every run, whatever the interleaving: balances explained, never negative, versions counting commits. */
  lemma RunKeepsTheBooks(start: Db, status: map<Id, Status>, es: seq<Event>, a: Id)
    requires DbOk(start) && forall b :: b in start.accounts ==> start.accounts[b].balance >= 0.0
    ensures var s := Run(Init(start, status), es);
            Opening(s.db, a).balance == Opening(start, a).balance + Sum(s.log, Delta(a))
            && Opening(s.db, a).balance >= 0.0
            && Opening(s.db, a).version == Opening(start, a).version + Commits(s.log, a)
            && Opening(s.db, a).balance - Total(s.db.records, SignedOn(a))
               == Opening(start, a).balance - Total(start.records, SignedOn(a))
  {
    RunSerializable(start, status, es);
    var s := Run(Init(start, status), es);
    NoUpdateLost(start, s.log, s.db, a);
    NeverNegative(start, s.log, s.db);
    RecordsExplainBalance(start, s.log, s.db, a);
  }

  /** Of the clients that read one version, whoever commits first makes every other commit change nothing. */
  lemma CompetingCommitFails(s: State, c: Client, id: Id, d: Client, id': Id)
    requires c != d && c in s.phases && d in s.phases
    requires s.phases[c].Creating? && s.phases[d].Creating?
    requires s.phases[c].params.account == s.phases[d].params.account
    requires s.phases[c].read.version == s.phases[d].read.version
    requires Step(s, CommitCreate(c, id)).log != s.log
    ensures var t := Step(s, CommitCreate(c, id));
            Step(t, CommitCreate(d, id')).db == t.db && Step(t, CommitCreate(d, id')).log == t.log
  {}

  /** A posting succeeds exactly on an account there is, under a new id, for an amount that is not negative and that a debit finds there. */
  lemma PostingExact(db: Db, p: Params, id: Id)
    ensures Serial(db, Create(p, id)).Some? <==>
              p.account in db.accounts && id !in db.used && p.amount >= 0.0
              && (p.kind == DEBIT ==> p.amount <= db.accounts[p.account].balance)
    ensures Serial(db, Create(p, id)).Some? ==>
              var a := db.accounts[p.account];
              var after := if p.kind == CREDIT then a.balance + p.amount else a.balance - p.amount;
              Serial(db, Create(p, id)).value
                == Db(db.accounts[p.account := Account(after, a.version + 1)],
                      db.records[id := Record(id, p, a.balance, after)], db.used + {id})
  {}

  /** A deletion succeeds exactly on a stored adjustment whose effect can be taken back, and takes it back. */
  lemma DeletionExact(db: Db, r: Record)
    ensures Serial(db, Remove(r)).Some? <==>
              r.id in db.records && db.records[r.id] == r && r.params.operation == ADJUSTMENT
              && r.params.account in db.accounts && r.params.amount >= 0.0
              && (r.params.kind == CREDIT ==> r.params.amount <= db.accounts[r.params.account].balance)
    ensures Serial(db, Remove(r)).Some? ==>
              var a := db.accounts[r.params.account];
              var after := if r.params.kind == CREDIT then a.balance - r.params.amount else a.balance + r.params.amount;
              Serial(db, Remove(r)).value
                == Db(db.accounts[r.params.account := Account(after, a.version + 1)], db.records - {r.id}, db.used)
  {}

  /** A request that nobody interrupts is exactly its serial action, refusals included. */
  lemma AloneIsSerial(s: State, c: Client, p: Params, id: Id)
    requires c !in s.phases
    ensures var t := Step(Step(s, BeginCreate(c, p)), CommitCreate(c, id));
            t.db == (if Loadable(s, p.account) && Serial(s.db, Create(p, id)).Some? then Serial(s.db, Create(p, id)).value else s.db)
            && t.phases == s.phases
  {
    var mid := Step(s, BeginCreate(c, p));
    if c in mid.phases {
      assert mid.phases - {c} == s.phases;
    }
  }

  /** And so is a removal that nobody interrupts. */
  lemma AloneRemovalIsSerial(s: State, c: Client, id: Id)
    requires c !in s.phases && DbOk(s.db)
    ensures var found := Step(s, ReadRecord(c, id));
            var t := Step(Step(found, ReadAccount(c)), CommitRemove(c));
            t.db == (if id in s.db.records && Loadable(s, s.db.records[id].params.account) && Serial(s.db, Remove(s.db.records[id])).Some?
                     then Serial(s.db, Remove(s.db.records[id])).value else s.db)
            && t.phases == s.phases
  {
    var found := Step(s, ReadRecord(c, id));
    if c in found.phases {
      var read := Step(found, ReadAccount(c));
      assert found.phases - {c} == s.phases;
      if c in read.phases {
        assert read.phases - {c} == s.phases;
      }
    }
  }

  /** Accounts are opened empty and ACTIVE, and their status is what it was last changed to. */
  lemma StatusSteps(s: State, a: Id, st: Status)
    ensures a !in s.db.accounts ==>
              var t := Step(s, OpenAccount(a));
              t.db == Db(s.db.accounts[a := Account(0.0, 1)], s.db.records, s.db.used) && t.status == s.status[a := ACTIVE]
    ensures a in s.db.accounts ==> Step(s, ChangeStatus(a, st)) == s.(status := s.status[a := st])
  {}

  // ----- The status guard is not covered by the version -----

  function ReadOf(ph: Phase): Option<Id> {
    match ph
    case Creating(p, _) => Some(p.account)
    case Found(_) => None
    case Removing(r, _) => Some(r.params.account)
  }

  /** Every request that has read an account and not yet committed still finds it ACTIVE. */
  predicate PendingActive(s: State) {
    forall c :: c in s.phases && ReadOf(s.phases[c]).Some? ==> Loadable(s, ReadOf(s.phases[c]).value)
  }

  predicate FreezesUnderRead(s: State, e: Event) {
    e.ChangeStatus? && e.status != ACTIVE && e.account in s.db.accounts
    && exists c :: c in s.phases && ReadOf(s.phases[c]) == Some(e.account)
  }

  /** Changing the status does not move the version, so the guard goes stale exactly when an account is taken out of ACTIVE under a reader. */
  lemma StatusGuardExact(s: State, e: Event)
    requires PendingActive(s)
    ensures PendingActive(Step(s, e)) <==> !FreezesUnderRead(s, e)
  {
    var t := Step(s, e);
    if FreezesUnderRead(s, e) {
      var c :| c in s.phases && ReadOf(s.phases[c]) == Some(e.account);
      assert c in t.phases && t.phases[c] == s.phases[c];
      assert !Loadable(t, ReadOf(t.phases[c]).value);
    } else {
      forall c | c in t.phases && ReadOf(t.phases[c]).Some?
        ensures Loadable(t, ReadOf(t.phases[c]).value)
      {
        if c in s.phases && t.phases[c] == s.phases[c] {
          assert Loadable(s, ReadOf(s.phases[c]).value);
        }
      }
    }
  }

  predicate Reading(s: State, c: Client, a: Id) {
    c in s.phases && ReadOf(s.phases[c]) == Some(a)
  }

  /** The client read the account at step i of the run, and has not left since. */
  predicate ReadsAt(s: State, es: seq<Event>, i: int, c: Client, a: Id) {
    0 <= i < |es| && !Reading(Run(s, es[..i]), c, a)
    && forall k :: i < k <= |es| ==> Reading(Run(s, es[..k]), c, a)
  }

  predicate Deactivates(e: Event, a: Id) {
    e.ChangeStatus? && e.account == a && e.status != ACTIVE
  }

  predicate NotReactivated(es: seq<Event>, j: int, a: Id) {
    forall k :: 0 <= j < k < |es| ==> es[k] != ChangeStatus(a, ACTIVE)
  }

  /** After step i the account is taken out of ACTIVE, and not put back. */
  ghost predicate DeactivatedAfter(es: seq<Event>, i: int, a: Id) {
    exists j :: 0 <= i < j < |es| && Deactivates(es[j], a) && NotReactivated(es, j, a)
  }

  lemma DeactivatedNext(es: seq<Event>, i: int, a: Id)
    requires 0 <= i < |es| - 1
    ensures var n := |es| - 1;
            DeactivatedAfter(es, i, a)
            <==> Deactivates(es[n], a) || (DeactivatedAfter(es[..n], i, a) && es[n] != ChangeStatus(a, ACTIVE))
  {
    var n := |es| - 1;
    if DeactivatedAfter(es, i, a) {
      var j :| i < j < |es| && Deactivates(es[j], a) && NotReactivated(es, j, a);
      assert j < n ==> es[..n][j] == es[j] && NotReactivated(es[..n], j, a);
    }
    assert NotReactivated(es, n, a);
    if DeactivatedAfter(es[..n], i, a) && es[n] != ChangeStatus(a, ACTIVE) {
      var j :| i < j < n && Deactivates(es[..n][j], a) && NotReactivated(es[..n], j, a);
      forall k | j < k < |es| ensures es[k] != ChangeStatus(a, ACTIVE) {
        assert k < n ==> es[..n][k] == es[k];
      }
    }
  }

  /** A read begins with the account loadable; after that only a change of its status matters. */
  lemma ReadStep(s: State, e: Event, c: Client, a: Id)
    requires Reading(Step(s, e), c, a)
    ensures !Reading(s, c, a) ==> Loadable(Step(s, e), a)
    ensures Reading(s, c, a) && a in s.db.accounts && a in s.status ==>
              (Loadable(Step(s, e), a) <==> !Deactivates(e, a) && (Loadable(s, a) || e == ChangeStatus(a, ACTIVE)))
    ensures a in s.db.accounts && a in s.status ==> a in Step(s, e).db.accounts && a in Step(s, e).status
  {}

  /** The step of the run at which a client that is reading read, and when the account is not ACTIVE any more. */
  lemma {:induction false} ReadSince(s: State, es: seq<Event>, c: Client, a: Id) returns (i: int)
    requires s.phases == map[] && Reading(Run(s, es), c, a)
    ensures ReadsAt(s, es, i, c, a)
    ensures a in Run(s, es).db.accounts && a in Run(s, es).status
    ensures Loadable(Run(s, es), a) <==> !DeactivatedAfter(es, i, a)
    decreases |es|
  {
    var n := |es| - 1;
    var mid := Run(s, es[..n]);
    ReadStep(mid, es[n], c, a);
    assert es[..|es|] == es;
    if Reading(mid, c, a) {
      i := ReadSince(s, es[..n], c, a);
      forall k | 0 <= k <= n ensures Run(s, es[..n][..k]) == Run(s, es[..k]) {
        assert es[..n][..k] == es[..k];
      }
      DeactivatedNext(es, i, a);
    } else {
      i := n;
    }
  }

  lemma ReadOnce(s: State, es: seq<Event>, c: Client, a: Id, i: int, j: int)
    requires ReadsAt(s, es, i, c, a) && ReadsAt(s, es, j, c, a)
    ensures i == j
  {}

  /** The client's read is followed by a deactivation of the account that nothing undoes. */
  ghost predicate DeactivatedSinceRead(s: State, es: seq<Event>, c: Client, a: Id) {
    exists i :: ReadsAt(s, es, i, c, a) && DeactivatedAfter(es, i, a)
  }

  /**
   In every run, a posting or a removal commits on an account that is not ACTIVE if and only
   if the account was taken out of ACTIVE, and not put back, between that client's read
   and its commit.
   */
  lemma CommitsOnInactiveIff(s: State, es: seq<Event>, e: Event, a: Id)
    requires s.phases == map[] && (e.CommitCreate? || e.CommitRemove?)
    requires Reading(Run(s, es), e.client, a) && Step(Run(s, es), e).log != Run(s, es).log
    ensures !Loadable(Step(Run(s, es), e), a) <==> DeactivatedSinceRead(s, es, e.client, a)
  {
    var t := Run(s, es);
    var i := ReadSince(s, es, e.client, a);
    CommitKeepsStatus(t, e, a);
    if DeactivatedSinceRead(s, es, e.client, a) {
      var j :| ReadsAt(s, es, j, e.client, a) && DeactivatedAfter(es, j, a);
      ReadOnce(s, es, e.client, a, i, j);
    }
  }

  lemma CommitKeepsStatus(s: State, e: Event, a: Id)
    requires e.CommitCreate? || e.CommitRemove?
    requires a in s.db.accounts
    ensures Loadable(Step(s, e), a) <==> Loadable(s, a)
  {}

  lemma RunPush(s: State, es: seq<Event>, e: Event)
    ensures Run(s, es + [e]) == Step(Run(s, es), e)
  {
    assert (es + [e])[..|es|] == es;
  }

  /** A run in which a frozen account is credited: read while ACTIVE, frozen, committed. */
  lemma FrozenAccountIsCredited(p: Params)
    requires p == Params(7, CREDIT, 5.0, SALE)
    ensures var es := [BeginCreate(0, p)] + [ChangeStatus(7, FROZEN)] + [CommitCreate(0, 1)];
            var s := Run(Init(Db(map[7 := Account(0.0, 1)], map[], {}), map[7 := ACTIVE]), es);
            s.status == map[7 := FROZEN] && s.db.accounts == map[7 := Account(5.0, 2)]
  {
    var start := Init(Db(map[7 := Account(0.0, 1)], map[], {}), map[7 := ACTIVE]);
    var one := [BeginCreate(0, p)];
    assert [] + one == one;
    RunPush(start, [], one[0]);
    RunPush(start, one, ChangeStatus(7, FROZEN));
    RunPush(start, one + [ChangeStatus(7, FROZEN)], CommitCreate(0, 1));
    var s1 := Run(start, one);
    assert s1.phases == map[0 := Creating(p, Account(0.0, 1))];
  }
}
