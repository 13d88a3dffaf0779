/**
 The query hook and the transaction helpers in the form the code has: an arguments object
 rewritten in place, settings published on a connection for one transaction, and a context
 store replaced for the duration of a callback
 (src/prisma/prisma.service.ts:42-164, src/common/context/tenant.context.ts:88-104).
 */
module PrismaService {
  import opened Options
  import opened Tenancy

  datatype Context = Context(org: Option<Id>, bypass: bool, guc: bool)

  /** A pooled connection: settings made with set_config(..., TRUE) end with its transaction. */
  datatype Conn = Conn(setting: Setting, inTx: bool)

  datatype Action = Begin | SetOrg(org: Id) | SetBypass | Query | Commit

  const IDLE := Conn(UNSET, false)

  function Perform(c: Conn, a: Action): Conn {
    match a
    case Begin => Conn(c.setting, true)
    case SetOrg(t) => if c.inTx then Conn(c.setting.(org := Some(t)), true) else c
    case SetBypass => if c.inTx then Conn(c.setting.(bypass := true), true) else c
    case Query => c
    case Commit => IDLE
  }

  function PerformAll(c: Conn, trace: seq<Action>): Conn {
    if |trace| == 0 then c else Perform(PerformAll(c, trace[..|trace| - 1]), trace[|trace| - 1])
  }

  // ----- What the hook and the helpers issue -----

  /** The statements one model call becomes. */
  function Hook(ctx: Option<Context>, aware: bool): seq<Action> {
    if !aware then [Query]
    else if ctx.Some? && ctx.value.guc then [Query]
    else if ctx.Some? && ctx.value.bypass then [Begin, SetBypass, Query, Commit]
    else if ctx.None? || ctx.value.org.None? then [Query]
    else [Begin, SetOrg(ctx.value.org.value), Query, Commit]
  }

  function Applied(ctx: Option<Context>): Option<Context> {
    Some((if ctx.Some? then ctx.value else Context(None, false, false)).(guc := true))
  }

  function AsSystem(ctx: Option<Context>): Option<Context> {
    Some((if ctx.Some? then ctx.value else Context(None, false, false)).(bypass := true))
  }

  function Publish(ctx: Option<Context>): seq<Action> {
    if ctx.Some? && ctx.value.bypass then [SetBypass]
    else if ctx.Some? && ctx.value.org.Some? then [SetOrg(ctx.value.org.value)]
    else []
  }

  function Body(ctx: Option<Context>, calls: seq<bool>): seq<Action> {
    if |calls| == 0 then [] else Body(ctx, calls[..|calls| - 1]) + Hook(ctx, calls[|calls| - 1])
  }

  function TenantTransaction(ctx: Option<Context>, calls: seq<bool>): seq<Action> {
    [Begin] + Publish(ctx) + Body(Applied(ctx), calls) + [Commit]
  }

  function SystemTransaction(ctx: Option<Context>, calls: seq<bool>): seq<Action> {
    [Begin, SetBypass] + Body(Applied(AsSystem(ctx)), calls) + [Commit]
  }

  /** n calls, all on tenant-aware models. */
  function Aware(n: nat): (r: seq<bool>)
    ensures |r| == n && forall i :: 0 <= i < n ==> r[i]
  {
    seq(n, i => true)
  }

  function Begins(trace: seq<Action>): nat {
    if |trace| == 0 then 0 else Begins(trace[..|trace| - 1]) + if trace[|trace| - 1] == Begin then 1 else 0
  }

  function Queries(n: nat): (r: seq<Action>)
    ensures |r| == n && forall i :: 0 <= i < n ==> r[i] == Query
  {
    seq(n, i => Query)
  }

  lemma {:induction false} BodyIsQueries(ctx: Option<Context>, calls: seq<bool>)
    requires ctx.Some? && ctx.value.guc
    ensures Body(ctx, calls) == Queries(|calls|)
  {
    if |calls| > 0 {
      BodyIsQueries(ctx, calls[..|calls| - 1]);
      assert Hook(ctx, calls[|calls| - 1]) == [Query];
    }
  }

  lemma {:induction false} QueriesChangeNothing(c: Conn, before: seq<Action>, n: nat)
    ensures PerformAll(c, before + Queries(n)) == PerformAll(c, before)
    ensures Begins(before + Queries(n)) == Begins(before)
  {
    if n == 0 {
      assert before + Queries(0) == before;
    } else {
      QueriesChangeNothing(c, before, n - 1);
      PerformPush(c, before + Queries(n - 1), Query);
      assert before + Queries(n) == before + Queries(n - 1) + [Query];
    }
  }

  lemma PerformPush(c: Conn, trace: seq<Action>, a: Action)
    ensures PerformAll(c, trace + [a]) == Perform(PerformAll(c, trace), a)
    ensures Begins(trace + [a]) == Begins(trace) + if a == Begin then 1 else 0
  {
    assert (trace + [a])[..|trace|] == trace;
  }

  /** What the policies see while the statements of a tenant transaction run. */
  function Published(ctx: Option<Context>): Setting {
    if ctx.Some? && ctx.value.bypass then Setting(None, true)
    else if ctx.Some? then Setting(ctx.value.org, false)
    else UNSET
  }

  /**
   Statements issued through a tenant transaction never make the hook open another one:
   one transaction begins, each call is one query, each runs under the published setting,
   and the connection goes back to the pool with no setting left.
   */
  lemma TenantTransactionExact(ctx: Option<Context>, calls: seq<bool>, n: nat)
    requires n <= |calls|
    ensures TenantTransaction(ctx, calls) == [Begin] + Publish(ctx) + Queries(|calls|) + [Commit]
    ensures Begins(TenantTransaction(ctx, calls)) == 1
    ensures PerformAll(IDLE, [Begin] + Publish(ctx) + Queries(n)).setting == Published(ctx)
    ensures PerformAll(IDLE, TenantTransaction(ctx, calls)) == IDLE
  {
    BodyIsQueries(Applied(ctx), calls);
    OpeningSets(ctx);
    QueriesChangeNothing(IDLE, [Begin] + Publish(ctx), n);
    QueriesChangeNothing(IDLE, [Begin] + Publish(ctx), |calls|);
    PerformPush(IDLE, [Begin] + Publish(ctx) + Queries(|calls|), Commit);
  }

  lemma OpeningSets(ctx: Option<Context>)
    ensures PerformAll(IDLE, [Begin] + Publish(ctx)) == Conn(Published(ctx), true)
    ensures Begins([Begin] + Publish(ctx)) == 1
  {
    PerformPush(IDLE, [], Begin);
    assert [] + [Begin] == [Begin];
    if Publish(ctx) == [] {
      assert [Begin] + [] == [Begin];
    } else {
      PerformPush(IDLE, [Begin], Publish(ctx)[0]);
      assert [Begin] + Publish(ctx) == [Begin] + [Publish(ctx)[0]];
    }
  }

  /** The same for a system transaction, which bypasses whatever tenant is in context. */
  lemma SystemTransactionExact(ctx: Option<Context>, calls: seq<bool>, n: nat)
    requires n <= |calls|
    ensures SystemTransaction(ctx, calls) == [Begin, SetBypass] + Queries(|calls|) + [Commit]
    ensures Begins(SystemTransaction(ctx, calls)) == 1
    ensures PerformAll(IDLE, [Begin, SetBypass] + Queries(n)).setting == Setting(None, true)
    ensures PerformAll(IDLE, SystemTransaction(ctx, calls)) == IDLE
  {
    BodyIsQueries(Applied(AsSystem(ctx)), calls);
    OpeningSets(Some(Context(None, true, false)));
    assert [Begin] + Publish(Some(Context(None, true, false))) == [Begin, SetBypass];
    QueriesChangeNothing(IDLE, [Begin, SetBypass], n);
    QueriesChangeNothing(IDLE, [Begin, SetBypass], |calls|);
    PerformPush(IDLE, [Begin, SetBypass] + Queries(|calls|), Commit);
  }

  /** A setting is local to a transaction: outside one it is not kept. */
  lemma SettingsAreLocal(c: Conn, t: Id)
    requires !c.inTx
    ensures Perform(c, SetOrg(t)) == c && Perform(c, SetBypass) == c
  {}

  /** Entering a helper marks the context and keeps what it says; entering as the system adds the bypass. */
  lemma ContextsNest(ctx: Option<Context>)
    ensures var outer := if ctx.Some? then ctx.value else Context(None, false, false);
            Applied(ctx) == Some(Context(outer.org, outer.bypass, true)) && AsSystem(ctx) == Some(Context(outer.org, true, outer.guc))
  {}

  /** The call gets a transaction of its own, on another connection of the pool. */
  predicate Wrapped(ctx: Option<Context>, aware: bool) {
    aware && ctx.Some? && !ctx.value.guc && (ctx.value.bypass || ctx.value.org.Some?)
  }

  /** The setting the query of a single call runs under. */
  function HookSetting(ctx: Option<Context>, aware: bool, c: Conn): Setting {
    if Wrapped(ctx, aware) then Published(ctx) else c.setting
  }

  /** A single call leaves no setting on the connection it ran on. */
  lemma {:induction false} HookLeavesPoolClean(ctx: Option<Context>, aware: bool)
    ensures PerformAll(IDLE, Hook(ctx, aware)) == IDLE
  {
    PerformPush(IDLE, [], Query);
    assert [] + [Query] == [Query];
    if Hook(ctx, aware) != [Query] {
      var h := Hook(ctx, aware);
      assert h == h[..3] + [Commit];
      PerformPush(IDLE, h[..3], Commit);
    }
  }

  // ----- Rewriting and policy together -----

  /** On arguments rewritten for the tenant whose setting is published the policies change nothing, but for an updateManyAndReturn that would reach others. */
  lemma PolicyAgrees(scheme: Scheme, op: Operation, a: Args, table: Table, t: Id)
    requires Unnamed(a)
    ensures ExecRls(scheme, Setting(Some(t), false), op, Some(Rewrite(op, a, t)), table)
         == Exec(scheme, op, Some(Rewrite(op, a, t)), table, None)
       <==> op != UpdateManyAndReturn || Matched(WhereOf(Some(a)), Others(table, t)) == map[]
  {
    if DataScoped(op) {
      StampedRows(op, a, t);
    } else if op == UpdateManyAndReturn {
      UpdateConfined(scheme, a, table, t);
      UpdateReturnsRuns(scheme, a, table, t);
      if Matched(WhereOf(Some(a)), Others(table, t)) == map[] {
        SliceAndOthers(table, t);
        SameHalves(ExecRls(scheme, Setting(Some(t), false), op, Some(a), table).0, Exec(scheme, op, Some(a), table, None).0, t);
      }
    } else {
      ScopedPolicyAgrees(scheme, op, Rewrite(op, a, t), table, t);
    }
  }

  lemma SliceAndOthers(table: Table, t: Id)
    ensures Slice(table, t) + Others(table, t) == table
  {}

  lemma SameHalves(m: Table, n: Table, t: Id)
    requires Slice(m, t) == Slice(n, t) && Others(m, t) == Others(n, t)
    ensures m == n
  {
    SliceAndOthers(m, t);
    SliceAndOthers(n, t);
  }

  /** Under the tenant's setting updateManyAndReturn, whatever its arguments, answers as on the slice and changes the slice alone. */
  lemma UpdateConfined(scheme: Scheme, a: Args, table: Table, t: Id)
    ensures var run := ExecRls(scheme, Setting(Some(t), false), UpdateManyAndReturn, Some(a), table);
            var slice := Exec(scheme, UpdateManyAndReturn, Some(a), Slice(table, t), Some(t));
            run.1 == slice.1 && Slice(run.0, t) == slice.0 && Others(run.0, t) == Others(table, t)
  {
    VisibleIsSlice(table, t);
    var slice := Slice(table, t);
    var change := Changing(Some(a), Matched(WhereOf(Some(a)), slice));
    ChangedSlice(table, t, change);
    RestUntouched(table, t, change, {});
  }

  /** A filter that names the tenant matches the same rows whether or not the others are hidden. */
  lemma ScopedPolicyAgrees(scheme: Scheme, op: Operation, b: Args, table: Table, t: Id)
    requires !DataScoped(op) && WhereOf(Some(b)).org == Some(t)
    requires op == Upsert && b.create.Some? ==> b.create.value.org == Some(t)
    ensures ExecRls(scheme, Setting(Some(t), false), op, Some(b), table) == Exec(scheme, op, Some(b), table, None)
  {
    VisibleIsSlice(table, t);
    var w := WhereOf(Some(b));
    assert Matched(w, Slice(table, t)) == Matched(w, table);
    var matched := Matched(w, table);
    RestUntouched(table, t, Changing(Some(b), matched), matched.Keys);
  }

  lemma RestUntouched(table: Table, t: Id, change: Table, gone: set<Id>)
    requires change.Keys <= Slice(table, t).Keys && gone <= Slice(table, t).Keys
    ensures (table - Slice(table, t).Keys) + (Slice(table, t) + change) == table + change
    ensures (table - Slice(table, t).Keys) + (Slice(table, t) - gone) == table - gone
    ensures (table - Slice(table, t).Keys) + Slice(table, t) == table
  {}

  /**
   End to end: what a call answers and does in a tenant's context is what it means on that
   tenant's slice, unless it creates what another organization holds, and then it does not.
   */
  lemma CallRunsOnSlice(scheme: Scheme, op: Operation, a: Args, table: Table, t: Id)
    requires Unnamed(a)
    ensures var run := ExecRls(scheme, Setting(Some(t), false), op, Some(Rewrite(op, a, t)), table);
            var slice := Exec(scheme, op, Some(a), Slice(table, t), Some(t));
            run.1 == slice.1 && Slice(run.0, t) == slice.0 && Others(run.0, t) == Others(table, t)
            <==> op == UpdateManyAndReturn || Undisturbed(scheme, op, a, table, t)
  {
    if op == UpdateManyAndReturn {
      UpdateConfined(scheme, a, table, t);
    } else {
      PolicyAgrees(scheme, op, a, table, t);
      RewritingPreservesMeaning(scheme, op, a, table, t);
    }
  }

  // ----- Calls inside a plain $transaction -----

  /** A plain transaction publishes nothing and leaves the context unmarked. */
  function PlainTransaction(ctx: Option<Context>, calls: seq<bool>): seq<Action> {
    [Begin] + Body(ctx, calls) + [Commit]
  }

  function WrappedCalls(ctx: Option<Context>, calls: seq<bool>): nat {
    if |calls| == 0 then 0
    else WrappedCalls(ctx, calls[..|calls| - 1]) + if Wrapped(ctx, calls[|calls| - 1]) then 1 else 0
  }

  lemma {:induction false} BeginsConcat(a: seq<Action>, b: seq<Action>)
    ensures Begins(a + b) == Begins(a) + Begins(b)
  {
    if |b| == 0 {
      assert a + b == a;
    } else {
      BeginsConcat(a, b[..|b| - 1]);
      PerformPush(IDLE, a + b[..|b| - 1], b[|b| - 1]);
      assert a + b == a + b[..|b| - 1] + [b[|b| - 1]];
    }
  }

  lemma {:induction false} HookBegins(ctx: Option<Context>, aware: bool)
    ensures Begins(Hook(ctx, aware)) == if Wrapped(ctx, aware) then 1 else 0
  {
    var h := Hook(ctx, aware);
    if |h| == 4 {
      assert h == [h[0]] + [h[1]] + [h[2]] + [h[3]];
      BeginsConcat([h[0]] + [h[1]] + [h[2]], [h[3]]);
      BeginsConcat([h[0]] + [h[1]], [h[2]]);
      BeginsConcat([h[0]], [h[1]]);
    }
  }

  /**
   Inside a plain transaction with a tenant or the bypass in context, every tenant-aware
   call begins a transaction of its own: the outer one stays alone if and only if no call
   is wrapped.
   */
  lemma {:induction false} PlainTransactionBegins(ctx: Option<Context>, calls: seq<bool>)
    ensures Begins(PlainTransaction(ctx, calls)) == 1 + WrappedCalls(ctx, calls)
    ensures Begins(PlainTransaction(ctx, calls)) == 1 <==> forall i :: 0 <= i < |calls| ==> !Wrapped(ctx, calls[i])
    ensures PerformAll(IDLE, PlainTransaction(ctx, calls)) == IDLE
  {
    PerformPush(IDLE, [Begin] + Body(ctx, calls), Commit);
    BodyBegins(ctx, calls);
    NoneWrapped(ctx, calls);
    BeginsConcat([Begin], Body(ctx, calls));
    BeginsConcat([Begin] + Body(ctx, calls), [Commit]);
  }

  lemma {:induction false} BodyBegins(ctx: Option<Context>, calls: seq<bool>)
    ensures Begins(Body(ctx, calls)) == WrappedCalls(ctx, calls)
  {
    if |calls| > 0 {
      var n := |calls| - 1;
      BodyBegins(ctx, calls[..n]);
      HookBegins(ctx, calls[n]);
      BeginsConcat(Body(ctx, calls[..n]), Hook(ctx, calls[n]));
    }
  }

  lemma {:induction false} NoneWrapped(ctx: Option<Context>, calls: seq<bool>)
    ensures WrappedCalls(ctx, calls) == 0 <==> forall i :: 0 <= i < |calls| ==> !Wrapped(ctx, calls[i])
  {
    if |calls| > 0 {
      NoneWrapped(ctx, calls[..|calls| - 1]);
    }
  }

  /** Where the outer transaction has no setting, a call that is not wrapped sees no rows, and one that is sees its tenant's. */
  lemma PlainCallSees(scheme: Scheme, ctx: Option<Context>, aware: bool, op: Operation, a: Option<Args>, table: Table)
    requires op in {FindUnique, FindFirst, FindMany, Count, Aggregate, GroupBy}
    ensures !Wrapped(ctx, aware) ==>
              ExecRls(scheme, HookSetting(ctx, aware, Conn(UNSET, true)), op, a, table) == (table, Found(map[]))
    ensures Wrapped(ctx, aware) && !ctx.value.bypass ==>
              ExecRls(scheme, HookSetting(ctx, aware, Conn(UNSET, true)), op, a, table)
              == (table, Found(Matched(WhereOf(a), Slice(table, ctx.value.org.value))))
  {
    UnsetSeesNothing(scheme, op, a, table);
    if Wrapped(ctx, aware) && !ctx.value.bypass {
      VisibleIsSlice(table, ctx.value.org.value);
      RestUntouched(table, ctx.value.org.value, map[], {});
    }
  }

  // ----- The client -----

  lemma Joined(a: seq<Action>, b: seq<Action>, c: seq<Action>, d: seq<Action>)
    ensures a + b + c + d == a + (b + c + d)
  {}

  /** An arguments object, which the hook updates in place. */
  class QueryArgs {
    var where_: Option<Where>
    var data: Option<Data>
    var create: Option<NewRow>
    var change: Columns -> Columns

    constructor (a: Args)
      ensures View() == a
    {
      where_, data, create, change := a.where_, a.data, a.create, a.change;
    }

    function View(): Args
      reads this
    {
      Args(where_, data, create, change)
    }

    method Scope(op: Operation, organizationId: Id)
      modifies this
      ensures View() == Rewrite(op, old(View()), organizationId)
    {
      if WhereScoped(op) {
        if where_.None? {
          where_ := Some(Where(Some(organizationId), Anything()));
        } else if where_.value.org.None? {
          where_ := Some(where_.value.(org := Some(organizationId)));
        }
      } else if DataScoped(op) {
        if data.Some? && data.value.Many? {
          var stamped := StampRows(data.value.rows, organizationId);
          data := Some(Many(stamped));
        } else if data.Some? {
          data := Some(One(Stamp(data.value.row, organizationId)));
        }
      } else if op == Upsert {
        if where_.None? {
          where_ := Some(Where(Some(organizationId), Anything()));
        } else if where_.value.org.None? {
          where_ := Some(where_.value.(org := Some(organizationId)));
        }
        if create.Some? && create.value.org.None? {
          create := Some(create.value.(org := Some(organizationId)));
        }
      }
    }
  }

  method StampRows(rows: seq<NewRow>, t: Id) returns (stamped: seq<NewRow>)
    ensures stamped == StampAll(rows, t)
  {
    stamped := [];
    for n := 0 to |rows|
      invariant stamped == StampAll(rows, t)[..n]
    {
      stamped := stamped + [Stamp(rows[n], t)];
    }
  }

  function ViewOf(a: QueryArgs?): Option<Args>
    reads a
  {
    if a == null then None else Some(a.View())
  }

  function IdleColumns(): Columns -> Columns {
    (c: Columns) => c
  }

  class PrismaClient {
    var table: Table
    var scheme: Scheme
    var conn: Conn
    var store: Option<Context>
    ghost var trace: seq<Action>

    constructor (s: Scheme)
      ensures table == map[] && scheme == s && conn == IDLE && store == None && trace == []
    {
      table, scheme, conn, store, trace := map[], s, IDLE, None, [];
    }

    method Do(a: Action)
      modifies this`conn, this`trace
      ensures conn == Perform(old(conn), a) && trace == old(trace) + [a]
    {
      conn := Perform(conn, a);
      trace := trace + [a];
    }

    method RunQuery(setting: Setting, op: Operation, args: Option<Args>) returns (answer: Answer)
      modifies this`table, this`trace
      ensures (table, answer) == ExecRls(scheme, setting, op, args, old(table))
      ensures trace == old(trace) + [Query]
    {
      var r := ExecRls(scheme, setting, op, args, table);
      table, answer := r.0, r.1;
      trace := trace + [Query];
    }

    /** selfRef.$transaction([set_config, query]): both on one connection taken from the pool, not on the caller's. */
    method RunWrapped(a: Action, op: Operation, args: Option<Args>) returns (answer: Answer)
      requires a.SetOrg? || a.SetBypass?
      modifies this`table, this`trace
      ensures trace == old(trace) + [Begin, a, Query, Commit]
      ensures (table, answer) == ExecRls(scheme, Perform(Perform(IDLE, Begin), a).setting, op, args, old(table))
    {
      var pooled := Perform(IDLE, Begin);
      pooled := Perform(pooled, a);
      trace := trace + [Begin] + [a];
      answer := RunQuery(pooled.setting, op, args);
      trace := trace + [Commit];
    }

    /** $allOperations, inside any transaction or none: the object that is rewritten is a fresh one when there are no arguments. */
    method AllOperations(aware: bool, op: Operation, args: QueryArgs?) returns (answer: Answer)
      modifies this`table, this`trace, args
      ensures trace == old(trace) + Hook(store, aware)
      ensures var rewritten := Wrapped(store, aware) && !store.value.bypass;
              (table, answer) == ExecRls(scheme, HookSetting(store, aware, conn), op,
                                         if rewritten then Issued(op, old(ViewOf(args)), store.value.org.value) else old(ViewOf(args)),
                                         old(table))
    {
      if !aware {
        answer := RunQuery(conn.setting, op, ViewOf(args));
        return;
      }
      if store.Some? && store.value.guc {
        answer := RunQuery(conn.setting, op, ViewOf(args));
        return;
      }
      if store.Some? && store.value.bypass {
        answer := RunWrapped(SetBypass, op, ViewOf(args));
        return;
      }
      if store.None? || store.value.org.None? {
        answer := RunQuery(conn.setting, op, ViewOf(args));
        return;
      }
      var organizationId := store.value.org.value;
      var mutableArgs: QueryArgs;
      if args == null {
        mutableArgs := new QueryArgs(Args(None, None, None, IdleColumns()));
      } else {
        mutableArgs := args;
      }
      mutableArgs.Scope(op, organizationId);
      answer := RunWrapped(SetOrg(organizationId), op, ViewOf(args));
    }

    method PublishTenant(ctx: Option<Context>)
      requires conn == Conn(UNSET, true)
      modifies this`conn, this`trace
      ensures conn == Conn(Published(ctx), true) && trace == old(trace) + Publish(ctx)
    {
      if ctx.Some? && ctx.value.bypass {
        Do(SetBypass);
      } else if ctx.Some? && ctx.value.org.Some? {
        Do(SetOrg(ctx.value.org.value));
      }
    }

    /** $tenantTransaction over calls made through `tx`: each runs as it is, under the published setting. */
    method TenantTransactionOf(calls: seq<(Operation, Option<Args>)>) returns (answers: seq<Answer>)
      requires conn == IDLE
      modifies this`table, this`conn, this`trace, this`store
      ensures conn == IDLE && store == old(store)
      ensures trace == old(trace) + TenantTransaction(store, Aware(|calls|))
      ensures (table, answers) == Sequence(scheme, Published(store), calls, old(table))
    {
      var ctx := store;
      BeginPublished(ctx);
      store := Applied(ctx);
      answers := RunCalls(calls);
      store := ctx;
      Do(Commit);
      Joined(old(trace), [Begin] + Publish(ctx), Body(Applied(ctx), Aware(|calls|)), [Commit]);
    }

    method BeginPublished(ctx: Option<Context>)
      requires conn == IDLE
      modifies this`conn, this`trace
      ensures conn == Conn(Published(ctx), true) && trace == old(trace) + ([Begin] + Publish(ctx))
    {
      Do(Begin);
      PublishTenant(ctx);
    }

    /** $systemTransaction. */
    method SystemTransactionOf(calls: seq<(Operation, Option<Args>)>) returns (answers: seq<Answer>)
      requires conn == IDLE
      modifies this`table, this`conn, this`trace, this`store
      ensures conn == IDLE && store == old(store)
      ensures trace == old(trace) + SystemTransaction(store, Aware(|calls|))
      ensures (table, answers) == Sequence(scheme, Setting(None, true), calls, old(table))
    {
      var ctx := store;
      store := AsSystem(ctx);
      BeginBypassed();
      store := Applied(store);
      answers := RunCalls(calls);
      Do(Commit);
      store := ctx;
      Joined(old(trace), [Begin, SetBypass], Body(Applied(AsSystem(ctx)), Aware(|calls|)), [Commit]);
    }

    method BeginBypassed()
      requires conn == IDLE
      modifies this`conn, this`trace
      ensures conn == Conn(Setting(None, true), true) && trace == old(trace) + [Begin, SetBypass]
    {
      Do(Begin);
      Do(SetBypass);
    }

    /** One call made through the transaction client. */
    method Call(op: Operation, args: Option<Args>) returns (answer: Answer)
      requires store.Some? && store.value.guc
      modifies this`table, this`trace
      ensures trace == old(trace) + [Query]
      ensures (table, answer) == ExecRls(scheme, conn.setting, op, args, old(table))
    {
      if args.None? {
        answer := AllOperations(true, op, null);
      } else {
        var query := new QueryArgs(args.value);
        answer := AllOperations(true, op, query);
      }
    }

    method RunCalls(calls: seq<(Operation, Option<Args>)>) returns (answers: seq<Answer>)
      requires store.Some? && store.value.guc
      modifies this`table, this`trace
      ensures trace == old(trace) + Body(store, Aware(|calls|))
      ensures (table, answers) == Sequence(scheme, conn.setting, calls, old(table))
    {
      answers := [];
      for n := 0 to |calls|
        invariant trace == old(trace) + Queries(n)
        invariant (table, answers) == Sequence(scheme, conn.setting, calls[..n], old(table))
      {
        assert calls[..n + 1][..n] == calls[..n];
        assert Queries(n + 1) == Queries(n) + [Query];
        var answer := Call(calls[n].0, calls[n].1);
        answers := answers + [answer];
      }
      BodyIsQueries(store, Aware(|calls|));
      assert calls[..|calls|] == calls;
    }
  }

  /** Calls one after another under one setting. */
  function Sequence(scheme: Scheme, g: Setting, calls: seq<(Operation, Option<Args>)>, table: Table): (Table, seq<Answer>) {
    if |calls| == 0 then (table, [])
    else
      var front := Sequence(scheme, g, calls[..|calls| - 1], table);
      var last := calls[|calls| - 1];
      var r := ExecRls(scheme, g, last.0, last.1, front.0);
      (r.0, front.1 + [r.1])
  }

  /** Whatever a tenant transaction is asked to do, explicit organizations included, other organizations' rows stay as they are. */
  lemma {:induction false} TransactionStaysInside(scheme: Scheme, t: Id, calls: seq<(Operation, Option<Args>)>, table: Table)
    ensures Others(Sequence(scheme, Setting(Some(t), false), calls, table).0, t) == Others(table, t)
  {
    if |calls| > 0 {
      var n := |calls| - 1;
      TransactionStaysInside(scheme, t, calls[..n], table);
      var mid := Sequence(scheme, Setting(Some(t), false), calls[..n], table).0;
      StatementStaysInside(scheme, t, calls[n].0, calls[n].1, mid);
    }
  }

  lemma StatementStaysInside(scheme: Scheme, t: Id, op: Operation, a: Option<Args>, table: Table)
    ensures Others(ExecRls(scheme, Setting(Some(t), false), op, a, table).0, t) == Others(table, t)
  {
    var matched := Matched(WhereOf(a), Slice(table, t));
    VisibleIsSlice(table, t);
    if DataScoped(op) {
      if forall i :: 0 <= i < |RowsOf(a)| ==> RowsOf(a)[i].org == Some(t) {
        InsertsInside(scheme, table, t, RowsOf(a));
      }
    } else if op == Upsert && matched == map[] {
      if a.Some? && a.value.create.Some? && a.value.create.value.org == Some(t)
         && InsertOne(scheme, table, a.value.create.value, None).Some? {
        InsertInside(scheme, table, t, a.value.create.value);
      }
    } else {
      SliceRunInside(scheme, op, a, table, t);
      OthersPutBack(table, t, Exec(scheme, op, a, Slice(table, t), None).0);
    }
  }

  lemma SliceRunInside(scheme: Scheme, op: Operation, a: Option<Args>, table: Table, t: Id)
    requires !DataScoped(op) && (op == Upsert ==> Matched(WhereOf(a), Slice(table, t)) != map[])
    ensures var seen := Exec(scheme, op, a, Slice(table, t), None).0;
            forall id :: id in seen ==> id in Slice(table, t) && seen[id].org == t
  {}

  lemma OthersPutBack(table: Table, t: Id, seen: Table)
    requires forall id :: id in seen ==> id in Slice(table, t) && seen[id].org == t
    ensures Others((table - Slice(table, t).Keys) + seen, t) == Others(table, t)
  {}

  lemma InsertInside(scheme: Scheme, table: Table, t: Id, r: NewRow)
    requires r.org == Some(t) && InsertOne(scheme, table, r, None).Some?
    ensures Others(InsertOne(scheme, table, r, None).value, t) == Others(table, t)
  {}

  lemma {:induction false} InsertsInside(scheme: Scheme, table: Table, t: Id, rows: seq<NewRow>)
    requires forall i :: 0 <= i < |rows| ==> rows[i].org == Some(t)
    ensures InsertAll(scheme, table, rows, None).Some? ==>
              Others(InsertAll(scheme, table, rows, None).value, t) == Others(table, t)
  {
    if |rows| > 0 {
      InsertsInside(scheme, table, t, rows[..|rows| - 1]);
      var mid := InsertAll(scheme, table, rows[..|rows| - 1], None);
      if mid.Some? && InsertOne(scheme, mid.value, rows[|rows| - 1], None).Some? {
        InsertInside(scheme, mid.value, t, rows[|rows| - 1]);
      }
    }
  }
}
