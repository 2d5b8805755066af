/**
 * The plugin store and the schema migration runner, over an abstract table in
 * place of SQLite. Engine failures, which the source only passes on, are inputs:
 * each operation is told whether the engine fails and with what message. The
 * clock is an input too.
 */
module Db {
  import opened Prelude
  import Decimal

  /**
   * A stored plugin. The run-continuously flag and the interval are the fields the
   * handlers' `PluginStore` interface reads and writes; timestamps are clock readings.
   */
  datatype Plugin = Plugin(
    id: int,
    name: string,
    code: string,
    orderNum: int,
    image: seq<Byte>,
    imageType: Option<string>,
    runContinuously: bool,
    intervalSeconds: int,
    createdAt: int,
    updatedAt: int)

  /** `sql.ErrNoRows`, or an error the engine reported. */
  datatype StoreError = ErrNoRows | EngineError(msg: string)

  /** How the engine treats one statement: it works, `Exec` fails, or reading its result fails. */
  datatype Fault = NoFault | ExecFails(msg: string) | ResultFails(msg: string)

  /** How the engine treats an `UpdateOrder` transaction. */
  datatype TxFault = TxOk | BeginFails(msg: string) | StepFails(index: nat, msg: string) | CommitFails(msg: string)

  /**
   * How the engine treats the `GetAll` query: it works; the query or a row scan fails
   * with `msg`; or `rows.Next()` stops after `read` rows because of an engine error,
   * which `rows.Err()` would report but the store never asks for.
   */
  datatype ListFault = ListOk | ListFails(msg: string) | NextStops(read: nat)

  function Min(a: nat, b: nat): nat {
    if a < b then a else b
  }

  /** An entry of an `UpdateOrder` request. */
  datatype Order = Order(id: int, orderNum: int)

  /** A list is in ascending `order_num` order. */
  predicate SortedByOrder(ps: seq<Plugin>) {
    forall j, k :: 0 <= j < k < |ps| ==> ps[j].orderNum <= ps[k].orderNum
  }

  /** The ids of a list. */
  function Ids(ps: seq<Plugin>): set<int> {
    set k | 0 <= k < |ps| :: ps[k].id
  }

  /** No id occurs twice in a list. */
  predicate DistinctIds(ps: seq<Plugin>) {
    forall j, k :: 0 <= j < k < |ps| ==> ps[j].id != ps[k].id
  }

  /** The table after the order updates, applied one after another; unknown ids change nothing. */
  function ApplyOrders(rows: map<int, Plugin>, orders: seq<Order>, now: int): (r: map<int, Plugin>)
    ensures r.Keys == rows.Keys
    decreases |orders|
  {
    if orders == [] then rows
    else
      var o := orders[0];
      var next := if o.id in rows then rows[o.id := rows[o.id].(orderNum := o.orderNum, updatedAt := now)] else rows;
      ApplyOrders(next, orders[1..], now)
  }

  /** The `order_num` the last entry for `id` sets, or `current` when there is none. */
  function LastOrder(orders: seq<Order>, id: int, current: int): int
    decreases |orders|
  {
    if orders == [] then current
    else LastOrder(orders[1..], id, if orders[0].id == id then orders[0].orderNum else current)
  }

  /**
   * Applying a batch changes only `order_num` and `updated_at`: each row ends with the
   * `order_num` of the last entry naming it, or keeps its own.
   */
  lemma {:induction false} ApplyOrdersEffect(rows: map<int, Plugin>, orders: seq<Order>, now: int, id: int)
    requires id in rows
    ensures var p := ApplyOrders(rows, orders, now)[id];
      && p.orderNum == LastOrder(orders, id, rows[id].orderNum)
      && p == rows[id].(orderNum := p.orderNum, updatedAt := p.updatedAt)
      && (p.updatedAt == now || p.updatedAt == rows[id].updatedAt)
    decreases |orders|
  {
    if orders != [] {
      var o := orders[0];
      var next := if o.id in rows then rows[o.id := rows[o.id].(orderNum := o.orderNum, updatedAt := now)] else rows;
      ApplyOrdersEffect(next, orders[1..], now, id);
    }
  }

  /** The store: its rows by id, and the highest id handed out so far. */
  class PluginStore {
    var rows: map<int, Plugin>
    var lastId: int

    /** Each row is filed under its own id, and every id is positive and already handed out. */
    ghost predicate Valid()
      reads this
    {
      lastId >= 0 && forall id :: id in rows ==> rows[id].id == id && 0 < id <= lastId
    }

    constructor ()
      ensures Valid() && rows == map[] && lastId == 0
    {
      rows := map[];
      lastId := 0;
    }

    /**
     * `Create`: stamps both timestamps with `now`, inserts the row under a fresh id and
     * gives back the caller's struct with the id set. If `Exec` fails nothing is stored;
     * if reading the new id fails the row is stored but the struct keeps its old id.
     */
    method Create(p: Plugin, now: int, fault: Fault) returns (created: Plugin, err: Option<StoreError>)
      requires Valid()
      modifies this
      ensures Valid()
      ensures created.createdAt == now && created.updatedAt == now
      ensures fault.ExecFails? ==>
        rows == old(rows) && lastId == old(lastId) &&
        created == p.(createdAt := now, updatedAt := now) && err == Some(EngineError(fault.msg))
      ensures !fault.ExecFails? ==>
        lastId == old(lastId) + 1 && lastId !in old(rows) &&
        rows == old(rows)[lastId := p.(id := lastId, createdAt := now, updatedAt := now)]
      ensures fault.ResultFails? ==> created == p.(createdAt := now, updatedAt := now) && err == Some(EngineError(fault.msg))
      ensures fault.NoFault? ==> created == rows[lastId] && err == None
    {
      created := p.(createdAt := now, updatedAt := now);
      if fault.ExecFails? {
        return created, Some(EngineError(fault.msg));
      }
      lastId := lastId + 1;
      rows := rows[lastId := created.(id := lastId)];
      if fault.ResultFails? {
        return created, Some(EngineError(fault.msg));
      }
      created := created.(id := lastId);
      err := None;
    }

    /** `GetByID`: the row with that id, `ErrNoRows` when there is none, or the engine's error. */
    function GetByID(id: int, fault: Option<string>): (r: Result<Plugin, StoreError>)
      reads this
      ensures fault.Some? ==> r == Err(EngineError(fault.value))
      ensures fault.None? ==> (r.Ok? <==> id in rows) && (r.Err? ==> r.error == ErrNoRows)
      ensures r.Ok? ==> r.value == rows[id]
    {
      if fault.Some? then Err(EngineError(fault.value))
      else if id in rows then Ok(rows[id])
      else Err(ErrNoRows)
    }

    /**
     * `GetAll`: every row exactly once, in ascending `order_num` order (rows with equal
     * `order_num` come in no particular order). `full` is that complete listing; when
     * the iteration stops early, the rows read so far come back with no error.
     */
    method GetAll(fault: ListFault) returns (r: Result<seq<Plugin>, StoreError>, ghost full: seq<Plugin>)
      requires Valid()
      ensures fault.ListFails? ==> r == Err(EngineError(fault.msg))
      ensures fault.ListOk? ==> r.Ok? && SortedByOrder(r.value) && DistinctIds(r.value) && Ids(r.value) == rows.Keys
      ensures r.Ok? ==> SortedByOrder(r.value) && DistinctIds(r.value)
      ensures r.Ok? ==> forall k :: 0 <= k < |r.value| ==> r.value[k].id in rows && r.value[k] == rows[r.value[k].id]
      ensures !fault.ListFails? ==>
        && SortedByOrder(full) && DistinctIds(full) && Ids(full) == rows.Keys
        && (forall k :: 0 <= k < |full| ==> full[k].id in rows && full[k] == rows[full[k].id])
        && r == Ok(if fault.NextStops? then full[..Min(fault.read, |full|)] else full)
    {
      if fault.ListFails? {
        return Err(EngineError(fault.msg)), [];
      }
      var out: seq<Plugin> := [];
      var id := 1;
      while id <= lastId
        invariant 1 <= id <= lastId + 1
        invariant SortedByOrder(out) && DistinctIds(out)
        invariant forall k :: 0 <= k < |out| ==> out[k].id in rows && out[k] == rows[out[k].id] && out[k].id < id
        invariant Ids(out) == set k | k in rows && k < id
      {
        if id in rows {
          assert id !in Ids(out);
          var k;
          ghost var before := out;
          out, k := InsertByOrder(out, rows[id]);
          InsertedIds(before, rows[id], k);
        }
        id := id + 1;
      }
      full := out;
      if fault.NextStops? {
        r := Ok(out[..Min(fault.read, |out|)]);
      } else {
        r := Ok(out);
      }
    }

    /**
     * `UpdateCode` with the handlers' seven arguments: sets code, image, image type,
     * name, the two run fields and `updated_at` of the row with that id. No row
     * matched is `ErrNoRows`; an `Exec` failure changes nothing; a failure to read the
     * affected-row count comes after the update has been made.
     */
    method UpdateCode(id: int, code: string, image: seq<Byte>, imageType: string, name: string,
                      runContinuously: bool, intervalSeconds: int, now: int, fault: Fault)
      returns (err: Option<StoreError>)
      requires Valid()
      modifies this
      ensures Valid() && lastId == old(lastId)
      ensures fault.ExecFails? ==> rows == old(rows) && err == Some(EngineError(fault.msg))
      ensures !fault.ExecFails? && id !in old(rows) ==> rows == old(rows)
      ensures !fault.ExecFails? && id in old(rows) ==>
        rows == old(rows)[id := old(rows)[id].(code := code, image := image, imageType := Some(imageType), name := name,
                                               runContinuously := runContinuously, intervalSeconds := intervalSeconds,
                                               updatedAt := now)]
      ensures fault.ResultFails? ==> err == Some(EngineError(fault.msg))
      ensures fault.NoFault? ==> (err == None <==> id in old(rows)) && (err.Some? ==> err.value == ErrNoRows)
    {
      if fault.ExecFails? {
        return Some(EngineError(fault.msg));
      }
      var affected := 0;
      if id in rows {
        rows := rows[id := rows[id].(code := code, image := image, imageType := Some(imageType), name := name,
                                     runContinuously := runContinuously, intervalSeconds := intervalSeconds,
                                     updatedAt := now)];
        affected := 1;
      }
      if fault.ResultFails? {
        return Some(EngineError(fault.msg));
      }
      if affected == 0 {
        return Some(ErrNoRows);
      }
      err := None;
    }

    /**
     * `UpdateOrder`: all entries in one transaction. The batch is applied to a pending
     * copy; a failure to begin, a failing entry or a failed commit leaves the table as
     * it was. An id with no row is not an error.
     */
    method UpdateOrder(orders: seq<Order>, now: int, fault: TxFault) returns (err: Option<StoreError>)
      requires Valid()
      modifies this
      ensures Valid() && lastId == old(lastId)
      ensures err.None? <==> fault.TxOk? || (fault.StepFails? && fault.index >= |orders|)
      ensures err.None? ==> rows == ApplyOrders(old(rows), orders, now)
      ensures err.Some? ==> rows == old(rows) && err.value == EngineError(fault.msg)
    {
      if fault.BeginFails? {
        return Some(EngineError(fault.msg));
      }
      var pending := rows;
      var i := 0;
      while i < |orders|
        invariant 0 <= i <= |orders|
        invariant ApplyOrders(pending, orders[i..], now) == ApplyOrders(rows, orders, now)
        invariant pending.Keys == rows.Keys && forall id :: id in pending ==> pending[id].id == id
        invariant fault.StepFails? ==> fault.index >= i
      {
        if fault.StepFails? && fault.index == i {
          return Some(EngineError(fault.msg));
        }
        var o := orders[i];
        assert orders[i..][1..] == orders[i + 1..];
        if o.id in pending {
          pending := pending[o.id := pending[o.id].(orderNum := o.orderNum, updatedAt := now)];
        }
        i := i + 1;
      }
      if fault.CommitFails? {
        return Some(EngineError(fault.msg));
      }
      assert orders[i..] == [];
      rows := pending;
      err := None;
    }

    /** `Delete`: removes the row with that id; `ErrNoRows` when there was none. */
    method Delete(id: int, fault: Fault) returns (err: Option<StoreError>)
      requires Valid()
      modifies this
      ensures Valid() && lastId == old(lastId)
      ensures fault.ExecFails? ==> rows == old(rows) && err == Some(EngineError(fault.msg))
      ensures !fault.ExecFails? ==> rows == old(rows) - {id}
      ensures fault.ResultFails? ==> err == Some(EngineError(fault.msg))
      ensures fault.NoFault? ==> (err == None <==> id in old(rows)) && (err.Some? ==> err.value == ErrNoRows)
    {
      if fault.ExecFails? {
        return Some(EngineError(fault.msg));
      }
      var affected := if id in rows then 1 else 0;
      rows := rows - {id};
      if fault.ResultFails? {
        return Some(EngineError(fault.msg));
      }
      if affected == 0 {
        return Some(ErrNoRows);
      }
      err := None;
    }
  }

  /** Inserts a row after every row with a smaller or equal `order_num`; `k` is where it went. */
  method InsertByOrder(ps: seq<Plugin>, p: Plugin) returns (r: seq<Plugin>, k: nat)
    requires SortedByOrder(ps)
    ensures SortedByOrder(r)
    ensures k <= |ps| && r == ps[..k] + [p] + ps[k..]
  {
    k := 0;
    while k < |ps| && ps[k].orderNum <= p.orderNum
      invariant 0 <= k <= |ps|
      invariant forall j :: 0 <= j < k ==> ps[j].orderNum <= p.orderNum
    {
      k := k + 1;
    }
    r := ps[..k] + [p] + ps[k..];
    assert forall j :: 0 <= j < k ==> r[j] == ps[j];
    assert r[k] == p;
    assert forall j :: k < j < |r| ==> r[j] == ps[j - 1];
  }

  /** Inserting a row with a new id adds exactly that id and keeps the ids distinct. */
  lemma InsertedIds(ps: seq<Plugin>, p: Plugin, k: nat)
    requires k <= |ps| && DistinctIds(ps) && p.id !in Ids(ps)
    ensures var r := ps[..k] + [p] + ps[k..];
      && Ids(r) == Ids(ps) + {p.id}
      && DistinctIds(r)
      && forall j :: 0 <= j < |r| ==> r[j] == p || r[j] in ps
  {
    var r := ps[..k] + [p] + ps[k..];
    assert forall j :: 0 <= j < k ==> r[j] == ps[j];
    assert r[k] == p;
    assert forall j :: k < j < |r| ==> r[j] == ps[j - 1];
    assert Ids(r) == Ids(ps) + {p.id} by {
      forall x | x in Ids(r) ensures x in Ids(ps) + {p.id} {
        var j :| 0 <= j < |r| && r[j].id == x;
        if j > k {
          assert ps[j - 1].id == x;
        }
      }
      forall x | x in Ids(ps) ensures x in Ids(r) {
        var j :| 0 <= j < |ps| && ps[j].id == x;
        if j < k {
          assert r[j].id == x;
        } else {
          assert r[j + 1].id == x;
        }
      }
      assert r[k].id == p.id;
    }
  }

  /** The migrations in order, each named by the table its statement creates. */
  const Migrations: seq<string> := ["plugins"]

  /** How the engine treats the transaction of one migration. */
  datatype MigrationFault =
    | MigrationOk
    | BeginFails(msg: string)
    | ApplyFails(msg: string)
    | RecordFails(msg: string)
    | CommitFails(msg: string)

  /** `COALESCE(MAX(version), 0)`: the largest recorded version, 0 for an empty table. */
  function MaxVersion(vs: seq<int>): (m: int)
    ensures vs == [] ==> m == 0
    ensures vs != [] ==> m in vs && forall v :: v in vs ==> v <= m
    decreases |vs|
  {
    if |vs| == 0 then 0
    else if |vs| == 1 then vs[0]
    else
      var m := MaxVersion(vs[..|vs| - 1]);
      assert vs == vs[..|vs| - 1] + [vs[|vs| - 1]];
      if m < vs[|vs| - 1] then vs[|vs| - 1] else m
  }

  /** The versions `lo`, `lo + 1`, ..., `hi - 1`, in that order. */
  function Span(lo: int, hi: int): (r: seq<int>)
    ensures |r| == if hi <= lo then 0 else hi - lo
    ensures forall k :: 0 <= k < |r| ==> r[k] == lo + k
    decreases hi - lo
  {
    if hi <= lo then [] else Span(lo, hi - 1) + [hi - 1]
  }

  /** The tables the migrations `lo` to `hi - 1` create. */
  function Created(lo: int, hi: int): set<string>
    requires 1 <= lo && hi <= |Migrations| + 1
  {
    set i | lo - 1 <= i < hi - 1 :: Migrations[i]
  }

  /** The first version from `lo` whose transaction fails, or `hi` when none before it does. */
  function FirstFailing(fault: int -> MigrationFault, lo: int, hi: int): (r: int)
    requires lo <= hi
    ensures lo <= r <= hi
    ensures forall v :: lo <= v < r ==> fault(v).MigrationOk?
    ensures r < hi ==> !fault(r).MigrationOk?
    decreases hi - lo
  {
    if lo == hi then hi
    else if !fault(lo).MigrationOk? then lo
    else FirstFailing(fault, lo + 1, hi)
  }

  /** The first failing version is the one before which every transaction succeeds and at which one fails. */
  lemma FirstFailingAt(fault: int -> MigrationFault, lo: int, hi: int, v: int)
    requires lo <= v <= hi
    requires forall w :: lo <= w < v ==> fault(w).MigrationOk?
    requires v == hi || !fault(v).MigrationOk?
    ensures FirstFailing(fault, lo, hi) == v
  {
  }

  /** Applying migration `v` adds its table to those of the migrations before it. */
  lemma CreatedStep(lo: int, v: int)
    requires 1 <= lo <= v <= |Migrations|
    ensures Created(lo, v + 1) == Created(lo, v) + {Migrations[v - 1]}
  {
  }

  /** The error `InitDB` returns when the transaction of `version` fails as `f` says. */
  function MigrationError(version: int, f: MigrationFault): (e: string)
    requires !f.MigrationOk?
    ensures exists prefix :: e == prefix + Decimal.Itoa(version) + ": " + f.msg
  {
    var prefix :=
      match f
      case BeginFails(_) => "failed to start transaction for version "
      case ApplyFails(_) => "failed to apply migration version "
      case RecordFails(_) => "failed to record migration version "
      case CommitFails(_) => "failed to commit migration version ";
    prefix + Decimal.Itoa(version) + ": " + f.msg
  }

  /**
   * Recording versions above the current one makes the last of them the new current
   * version, and an up-to-date table stays up to date.
   */
  lemma MaxAfterSpan(vs: seq<int>, hi: int)
    ensures MaxVersion(vs + Span(MaxVersion(vs) + 1, hi)) == if hi <= MaxVersion(vs) + 1 then MaxVersion(vs) else hi - 1
  {
    var m := MaxVersion(vs);
    var s := Span(m + 1, hi);
    var all := vs + s;
    if hi <= m + 1 {
      assert all == vs;
    } else {
      assert all[|all| - 1] == hi - 1;
      forall v | v in all ensures v <= hi - 1 {
        if v in vs {
          assert v <= m;
        } else {
          var k :| 0 <= k < |s| && s[k] == v;
        }
      }
      var r := MaxVersion(all);
      assert hi - 1 in all;
      assert r <= hi - 1 && r >= hi - 1;
    }
  }

  /** After every pending migration has been recorded the schema is current: a second run applies nothing. */
  lemma MigratedIsCurrent(vs: seq<int>)
    ensures var after := vs + Span(MaxVersion(vs) + 1, |Migrations| + 1);
      MaxVersion(after) >= |Migrations| && Span(MaxVersion(after) + 1, |Migrations| + 1) == []
  {
    MaxAfterSpan(vs, |Migrations| + 1);
  }

  /** Versions as the version table can hold them: positive, and no version twice. */
  predicate VersionsOk(vs: seq<int>) {
    (forall k :: 0 <= k < |vs| ==> vs[k] >= 1) &&
    (forall j, k :: 0 <= j < k < |vs| ==> vs[j] != vs[k])
  }

  /**
   * Recording the versions `lo` to `hi - 1` above the current maximum keeps the
   * versions positive and distinct, as the version table's primary key demands.
   */
  lemma RecordSpan(vs: seq<int>, lo: int, hi: int)
    requires VersionsOk(vs) && 1 <= lo && MaxVersion(vs) < lo
    ensures VersionsOk(vs + Span(lo, hi))
  {
    var sp := Span(lo, hi);
    var a := vs + sp;
    forall k | 0 <= k < |a| ensures a[k] >= 1 {
      if k >= |vs| {
        assert a[k] == sp[k - |vs|];
      }
    }
    forall j, k | 0 <= j < k < |a| ensures a[j] != a[k] {
      if k >= |vs| {
        assert a[k] == sp[k - |vs|] && a[k] >= lo;
        if j < |vs| {
          assert vs[j] in vs;
        } else {
          assert a[j] == sp[j - |vs|];
        }
      }
    }
  }

  /** The schema: whether the version table exists, the recorded versions and the tables. */
  class Database {
    var versionTable: bool
    var versions: seq<int>
    var tables: set<string>

    /** Recorded versions are positive (the version table's primary key keeps them distinct). */
    ghost predicate Valid()
      reads this
    {
      VersionsOk(versions)
    }

    /** A new, empty database. */
    constructor ()
      ensures Valid() && !versionTable && versions == [] && tables == {}
    {
      versionTable := false;
      versions := [];
      tables := {};
    }

    /**
     * `InitDB`: creates the version table if need be, reads the current version and
     * applies every later migration in its own transaction, in order, stopping at the
     * first failure. A migration's table and its version record are committed together
     * or not at all. `createFault` and `queryFault` are the engine's failures of the
     * first two statements.
     */
    method InitDB(createFault: Option<string>, queryFault: Option<string>, fault: int -> MigrationFault)
      returns (err: Option<string>)
      requires Valid()
      modifies this
      ensures Valid()
      ensures createFault.Some? ==>
        err == Some("failed to create schema version table: " + createFault.value) &&
        versionTable == old(versionTable) && versions == old(versions) && tables == old(tables)
      ensures createFault.None? ==> versionTable
      ensures createFault.None? && queryFault.Some? ==>
        err == Some("failed to get current schema version: " + queryFault.value) &&
        versions == old(versions) && tables == old(tables)
      ensures createFault.None? && queryFault.None? ==>
        var cur := MaxVersion(old(versions));
        var n := |Migrations|;
        var stop := if cur + 1 <= n + 1 then FirstFailing(fault, cur + 1, n + 1) else cur + 1;
        && versions == old(versions) + Span(cur + 1, stop)
        && tables == old(tables) + (if cur + 1 <= n + 1 then Created(cur + 1, stop) else {})
        && (err.None? <==> stop >= n + 1)
        && (err.Some? ==> err == Some(MigrationError(stop, fault(stop))))
    {
      if createFault.Some? {
        return Some("failed to create schema version table: " + createFault.value);
      }
      versionTable := true;
      if queryFault.Some? {
        return Some("failed to get current schema version: " + queryFault.value);
      }
      var cur := MaxVersion(versions);
      assert cur >= 0 by {
        if versions != [] {
          assert versions[0] in versions;
        }
      }
      if cur <= |Migrations| {
        ghost var before := versions;
        err := Migrate(cur, fault);
        RecordSpan(before, cur + 1, FirstFailing(fault, cur + 1, |Migrations| + 1));
      } else {
        err := None;
      }
    }

    /** The loop of `InitDB`: applies the migrations after version `cur`, each in its own transaction. */
    method Migrate(cur: nat, fault: int -> MigrationFault) returns (err: Option<string>)
      requires versionTable && cur <= |Migrations|
      modifies this
      ensures versionTable
      ensures var stop := FirstFailing(fault, cur + 1, |Migrations| + 1);
        && versions == old(versions) + Span(cur + 1, stop)
        && tables == old(tables) + Created(cur + 1, stop)
        && (err.None? <==> stop == |Migrations| + 1)
        && (err.Some? ==> err == Some(MigrationError(stop, fault(stop))))
    {
      ghost var start := versions;
      ghost var startTables := tables;
      var version := cur + 1;
      while version <= |Migrations|
        invariant cur + 1 <= version <= |Migrations| + 1
        invariant forall v :: cur + 1 <= v < version ==> fault(v).MigrationOk?
        invariant versions == start + Span(cur + 1, version)
        invariant tables == startTables + Created(cur + 1, version)
        invariant versionTable
      {
        var f := fault(version);
        if !f.MigrationOk? {
          FirstFailingAt(fault, cur + 1, |Migrations| + 1, version);
          return Some(MigrationError(version, f));
        }
        assert Span(cur + 1, version + 1) == Span(cur + 1, version) + [version];
        versions := versions + [version];
        CreatedStep(cur + 1, version);
        tables := tables + {Migrations[version - 1]};
        version := version + 1;
      }
      FirstFailingAt(fault, cur + 1, |Migrations| + 1, version);
      err := None;
    }
  }
}

