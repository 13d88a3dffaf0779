/**
 The ledger service in the form the code has: an account entity that changes its
 own balance and version, a conditional update, and a service whose `execute`
 callback is cut at its database reads into the steps other requests can fall between.
 Every method is proved equal to the corresponding step of module Ledger.
 */
module LedgerService {
  import opened Ledger
  import opened Options

  datatype Reply =
    | Waiting
    | Created(record: Record)
    | Deleted(record: Record)
    | NotFound
    | Unprocessable
    | EntityError
    | BadRequest
    | Conflict

  class BankAccountEntity {
    var balance: real
    var version: int

    constructor (row: Account)
      ensures balance == row.balance && version == row.version
    {
      balance, version := row.balance, row.version;
    }

    method IncreaseBalance(amount: real) returns (ok: bool)
      modifies this
      ensures ok <==> amount >= 0.0
      ensures ok ==> balance == old(balance) + amount && version == old(version) + 1
      ensures !ok ==> balance == old(balance) && version == old(version)
    {
      if amount < 0.0 {
        return false;
      }
      balance := balance + amount;
      version := version + 1;
      ok := true;
    }

    method DecreaseBalance(amount: real) returns (ok: bool)
      modifies this
      ensures ok <==> amount >= 0.0 && old(balance) >= amount
      ensures ok ==> balance == old(balance) - amount && version == old(version) + 1
      ensures !ok ==> balance == old(balance) && version == old(version)
    {
      if amount < 0.0 {
        return false;
      }
      if balance < amount {
        return false;
      }
      balance := balance - amount;
      version := version + 1;
      ok := true;
    }

    method Apply(k: Kind, amount: real) returns (ok: bool)
      modifies this
      ensures ok <==> Posted(old(balance), k, amount).Some?
      ensures ok ==> balance == Posted(old(balance), k, amount).value && version == old(version) + 1
      ensures !ok ==> balance == old(balance) && version == old(version)
    {
      if k.CREDIT? {
        ok := IncreaseBalance(amount);
      } else {
        ok := DecreaseBalance(amount);
      }
    }
  }

  class FinancialTransactionsService {
    var accounts: map<Id, Account>
    var status: map<Id, Status>
    var records: map<Id, Record>
    var used: set<Id>
    var phases: map<Client, Phase>
    ghost var log: seq<Op>

    ghost function State(): State
      reads this
    {
      Ledger.State(Db(accounts, records, used), status, phases, log)
    }

    constructor ()
      ensures State() == Init(Db(map[], map[], {}), map[])
    {
      accounts, status, records, used, phases, log := map[], map[], map[], {}, map[], [];
    }

    /** UPDATE ... SET balance, version = version + 1 WHERE id AND version; no row is Prisma's P2025. */
    method UpdateWithVersion(id: Id, currentVersion: int, balance: real) returns (found: bool)
      modifies this`accounts
      ensures found <==> VersionMatches(old(State().db), id, currentVersion)
      ensures found ==> State().db == Write(old(State().db), id, balance)
      ensures !found ==> accounts == old(accounts)
    {
      if id in accounts && accounts[id].version == currentVersion {
        accounts := accounts[id := Account(balance, accounts[id].version + 1)];
        return true;
      }
      found := false;
    }

    /** Reads and checks of createTransaction, up to its conditional update. */
    method BeginCreate(c: Client, p: Params) returns (reply: Reply)
      requires c !in phases
      modifies this`phases
      ensures State() == Step(old(State()), Event.BeginCreate(c, p))
      ensures reply == Waiting <==> c in phases
      ensures reply == NotFound <==> p.account !in accounts
      ensures reply == Unprocessable <==> p.account in accounts && !Loadable(State(), p.account)
      ensures reply in {Waiting, NotFound, Unprocessable, EntityError}
    {
      if p.account !in accounts {
        return NotFound;
      }
      if p.account !in status || status[p.account] != ACTIVE {
        return Unprocessable;
      }
      var account := new BankAccountEntity(accounts[p.account]);
      var versionBefore := account.version;
      var balanceBefore := account.balance;
      var ok := account.Apply(p.kind, p.amount);
      if !ok {
        return EntityError;
      }
      phases := phases[c := Creating(p, Account(balanceBefore, versionBefore))];
      reply := Waiting;
    }

    /** The conditional update, the record and the commit; a conflict rolls back. */
    method CommitCreate(c: Client, id: Id) returns (reply: Reply)
      requires c in phases && phases[c].Creating?
      requires Posted(phases[c].read.balance, phases[c].params.kind, phases[c].params.amount).Some?
      requires id !in used
      modifies this
      ensures State() == Step(old(State()), Event.CommitCreate(c, id))
      ensures reply.Created? || reply == Conflict
      ensures reply == Conflict <==> !VersionMatches(old(State().db), old(phases[c].params.account), old(phases[c].read.version))
      ensures reply.Created? ==> id in records && records[id] == reply.record
    {
      var Creating(p, read) := phases[c];
      phases := phases - {c};
      var account := new BankAccountEntity(read);
      var ok := account.Apply(p.kind, p.amount);
      var found := UpdateWithVersion(p.account, read.version, account.balance);
      if !found {
        return Conflict;
      }
      var record := Record(id, p, read.balance, account.balance);
      records := records[id := record];
      used := used + {id};
      log := log + [Create(p, id)];
      reply := Created(record);
    }

    /** remove: the record is fetched outside the transaction. */
    method ReadRecord(c: Client, id: Id) returns (reply: Reply)
      requires c !in phases
      modifies this`phases
      ensures State() == Step(old(State()), Event.ReadRecord(c, id))
      ensures reply == NotFound <==> id !in records
      ensures reply == BadRequest <==> id in records && records[id].params.operation != ADJUSTMENT
      ensures reply in {Waiting, NotFound, BadRequest}
    {
      if id !in records {
        return NotFound;
      }
      if records[id].params.operation != ADJUSTMENT {
        return BadRequest;
      }
      phases := phases[c := Found(records[id])];
      reply := Waiting;
    }

    method ReadAccount(c: Client) returns (reply: Reply)
      requires c in phases && phases[c].Found?
      modifies this`phases
      ensures State() == Step(old(State()), Event.ReadAccount(c))
      ensures reply == Waiting <==> c in phases
      ensures var r := old(phases[c].record); var a := r.params.account;
              (reply == NotFound <==> a !in accounts)
              && (reply == Unprocessable <==> a in accounts && !Loadable(State(), a))
              && (reply == BadRequest <==>
                    Loadable(State(), a) && Posted(accounts[a].balance, Opposite(r.params.kind), r.params.amount).None?)
      ensures reply in {Waiting, NotFound, Unprocessable, BadRequest}
    {
      var r := phases[c].record;
      var a := r.params.account;
      if a !in accounts {
        phases := phases - {c};
        return NotFound;
      }
      if a !in status || status[a] != ACTIVE {
        phases := phases - {c};
        return Unprocessable;
      }
      var account := new BankAccountEntity(accounts[a]);
      var ok := account.Apply(Opposite(r.params.kind), r.params.amount);
      if !ok {
        phases := phases - {c};
        return BadRequest;
      }
      phases := phases[c := Removing(r, accounts[a])];
      reply := Waiting;
    }

    /** The conditional update and the delete; if either finds no row, both are undone. */
    method CommitRemove(c: Client) returns (reply: Reply)
      requires c in phases && phases[c].Removing?
      requires Posted(phases[c].read.balance, Opposite(phases[c].record.params.kind), phases[c].record.params.amount).Some?
      modifies this
      ensures State() == Step(old(State()), Event.CommitRemove(c))
      ensures reply.Deleted? <==> VersionMatches(old(State().db), old(phases[c].record.params.account), old(phases[c].read.version))
                                  && old(phases[c].record.id) in old(records)
      ensures reply == Conflict <==> !VersionMatches(old(State().db), old(phases[c].record.params.account), old(phases[c].read.version))
      ensures reply in {Conflict, NotFound} || reply == Deleted(old(phases[c].record))
    {
      var Removing(r, read) := phases[c];
      phases := phases - {c};
      var account := new BankAccountEntity(read);
      var ok := account.Apply(Opposite(r.params.kind), r.params.amount);
      var savedAccounts := accounts;
      var found := UpdateWithVersion(r.params.account, read.version, account.balance);
      if !found {
        return Conflict;
      }
      if r.id !in records {
        accounts := savedAccounts; // the failed delete rolls the transaction back
        return NotFound;
      }
      records := records - {r.id};
      log := log + [Op.Remove(r)];
      reply := Deleted(r);
    }

    method ChangeStatus(a: Id, st: Status) returns (reply: Reply)
      modifies this`status
      ensures State() == Step(old(State()), Event.ChangeStatus(a, st))
      ensures reply == NotFound <==> a !in accounts
    {
      if a !in accounts {
        return NotFound;
      }
      status := status[a := st];
      reply := Waiting;
    }
  }
}
