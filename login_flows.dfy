/**
 * The tenant-scoped store of login flows: the SQL persister's login-flow
 * operations over one flow table shared by every tenant (network id, NID).
 * The table is a map from flow id to the stored row; the tenant that the
 * request context resolves to is an explicit parameter of every operation.
 */
module LoginFlowPersister {
  import opened Results
  import opened Arithmetic

  /** Flow ids and network (tenant) ids are UUIDs; only their equality matters here. */
  type Uuid = nat

  /** One row of the login-flow table, i.e. the persisted fields of a login flow. */
  datatype Flow = Flow(
    id: Uuid,
    nid: Uuid,
    expiresAt: int,            // timestamp, in any fixed unit
    refresh: bool,             // forced re-authentication requested
    internalContext: string,   // strategy-private JSON payload, never interpreted here
    requestURL: string,        // passed through unchanged
    active: string)            // passed through unchanged

  /** Error kinds the store reports once the driver error has been translated. */
  datatype StoreError = NotFound | Conflict | StoreUnavailable

  /** The payload `EnsureInternalContext` installs when a flow has none. */
  const EmptyInternalContext: string := "{}"

  /**
   * A flow whose internal context is guaranteed to be populated: an empty
   * payload is replaced by the empty JSON object, a present one is kept.
   */
  function EnsureInternalContext(f: Flow): (g: Flow)
    ensures g.internalContext != []
    ensures f.internalContext != [] ==> g == f
    ensures g == f.(internalContext := g.internalContext)
  {
    if f.internalContext == [] then f.(internalContext := EmptyInternalContext) else f
  }

  /** Every row is stored under its own id (the table's primary key). */
  ghost predicate Keyed(rows: map<Uuid, Flow>)
  {
    forall id :: id in rows ==> rows[id].id == id
  }

  /** The row `WHERE id = ? AND nid = ?` selects, or the not-found error. */
  function Lookup(rows: map<Uuid, Flow>, tenant: Uuid, id: Uuid): (r: Result<Flow, StoreError>)
  {
    if id in rows && rows[id].nid == tenant then Ok(rows[id]) else Err(NotFound)
  }

  /** The table after a forced refresh of `id` on behalf of `tenant`. */
  function Forced(rows: map<Uuid, Flow>, tenant: Uuid, id: Uuid): (forced: map<Uuid, Flow>)
  {
    match Lookup(rows, tenant, id)
    case Ok(f) => rows[id := f.(refresh := true)]
    case Err(_) => rows
  }

  /** A lookup only ever yields the caller's own flow, under the id asked for. */
  lemma LookupIsTenantScoped(rows: map<Uuid, Flow>, tenant: Uuid, id: Uuid)
    requires Keyed(rows)
    ensures Lookup(rows, tenant, id).Ok? <==> id in rows && rows[id].nid == tenant
    ensures Lookup(rows, tenant, id).Ok? ==>
      Lookup(rows, tenant, id).value.nid == tenant && Lookup(rows, tenant, id).value.id == id
    ensures Lookup(rows, tenant, id).Err? ==> Lookup(rows, tenant, id).error == NotFound
  {
  }

  /**
   * A flow owned by another tenant is indistinguishable from a missing one:
   * both lookups produce the same error.
   */
  lemma ForeignFlowLooksMissing(rows: map<Uuid, Flow>, tenant: Uuid, id: Uuid, missing: Uuid)
    requires id in rows && rows[id].nid != tenant
    requires missing !in rows
    ensures Lookup(rows, tenant, id) == Lookup(rows, tenant, missing) == Err(NotFound)
  {
  }

  /** Forcing touches at most the one row, sets its refresh flag and keeps everything else. */
  lemma ForcedFrame(rows: map<Uuid, Flow>, tenant: Uuid, id: Uuid)
    requires Keyed(rows)
    ensures Keyed(Forced(rows, tenant, id))
    ensures Forced(rows, tenant, id).Keys == rows.Keys
    ensures forall k :: k in rows && k != id ==> Forced(rows, tenant, id)[k] == rows[k]
    ensures Lookup(rows, tenant, id).Ok? ==> Forced(rows, tenant, id)[id] == rows[id].(refresh := true)
    ensures Lookup(rows, tenant, id).Err? ==> Forced(rows, tenant, id) == rows
  {
  }

  /** Forcing twice leaves the same table as forcing once. */
  lemma ForcedIdempotent(rows: map<Uuid, Flow>, tenant: Uuid, id: Uuid)
    ensures Forced(Forced(rows, tenant, id), tenant, id) == Forced(rows, tenant, id)
  {
  }

  // ---------------------------------------------------------------------
  // The expiry sweep, as a plan of per-pass deletion counts.
  // ---------------------------------------------------------------------

  /** Ids of the rows `expires_at <= cutoff` matches, whatever their tenant. */
  function ExpiredIds(rows: map<Uuid, Flow>, cutoff: int): (ids: set<Uuid>)
  {
    set id | id in rows && rows[id].expiresAt <= cutoff
  }

  /**
   * Rows one `DELETE ... WHERE expires_at <= ? LIMIT batch` removes when
   * `expired` rows match: the limit caps it, and a limit that is not
   * positive deletes nothing.
   */
  function PassCount(expired: nat, batch: int): (count: nat)
  {
    Min(Max(batch, 0), expired)
  }

  function Sum(s: seq<nat>): (total: nat)
  {
    if s == [] then 0 else s[0] + Sum(s[1..])
  }

  /**
   * The per-pass counts of a sweep that starts with `expired` matching rows:
   * each pass first lowers `limit` by `batch`, deletes, stops on a pass that
   * deleted nothing, and otherwise goes on while `batch <= limit`.
   */
  function Passes(expired: nat, limit: int, batch: int): (plan: seq<nat>)
    decreases expired
  {
    var count := PassCount(expired, batch);
    var left := limit - batch;
    if count == 0 || !(batch <= left) then [count]
    else [count] + Passes(expired - count, left, batch)
  }

  /** Appending a pass adds its count to the sum. */
  lemma {:induction false} SumSnoc(s: seq<nat>, x: nat)
    ensures Sum(s + [x]) == Sum(s) + x
  {
    if s != [] {
      assert (s + [x])[1..] == s[1..] + [x];
      SumSnoc(s[1..], x);
    }
  }

  /** The passes run so far never delete more than the whole plan. */
  lemma {:induction false} SumPrefix(s: seq<nat>, k: nat)
    requires k <= |s|
    ensures Sum(s[..k]) <= Sum(s)
  {
    if k > 0 {
      assert s[..k][1..] == s[1..][..k - 1];
      SumPrefix(s[1..], k - 1);
    }
  }

  /**
   * The sweep's position in its plan survives one more pass: when the rest
   * of the plan from `pass` on is the plan for the `expired` rows left under
   * `limit`, the pass deletes `plan[pass]` rows, and after it either the
   * plan is complete or the rest of it is the plan for the rows still
   * expired under the lowered limit `left`.
   */
  lemma PlanStep(expired: nat, rest: nat, limit: int, left: int, batch: int,
                 pass: nat, count: nat, plan: seq<nat>)
    requires pass < |plan| && plan[pass..] == Passes(expired, limit, batch)
    requires count == PassCount(expired, batch) && rest == expired - count && left == limit - batch
    ensures plan[pass] == count
    ensures Sum(plan[..pass + 1]) == Sum(plan[..pass]) + count
    ensures count == 0 || !(batch <= left) ==> pass + 1 == |plan|
    ensures count != 0 && batch <= left ==>
      pass + 1 < |plan| && plan[pass + 1..] == Passes(rest, left, batch)
  {
    assert plan[pass] == plan[pass..][0];
    assert plan[..pass + 1] == plan[..pass] + [count];
    SumSnoc(plan[..pass], count);
    if count != 0 && batch <= left {
      assert plan[pass + 1..] == plan[pass..][1..];
    }
  }

  /**
   * At least one pass runs; no pass deletes more than `batch` rows (nothing
   * when `batch` is not positive); every pass except the last deleted
   * something; and no more rows are deleted than had expired.
   */
  lemma {:induction false} PassesShape(expired: nat, limit: int, batch: int)
    ensures |Passes(expired, limit, batch)| >= 1
    ensures forall i :: 0 <= i < |Passes(expired, limit, batch)| ==>
      Passes(expired, limit, batch)[i] <= Max(batch, 0)
    ensures forall i :: 0 <= i < |Passes(expired, limit, batch)| - 1 ==>
      Passes(expired, limit, batch)[i] > 0
    ensures Sum(Passes(expired, limit, batch)) <= expired
    decreases expired
  {
    var count := PassCount(expired, batch);
    var left := limit - batch;
    if count != 0 && batch <= left {
      PassesShape(expired - count, left, batch);
      var rest := Passes(expired - count, left, batch);
      assert Passes(expired, limit, batch) == [count] + rest;
      assert forall i :: 1 <= i < |rest| + 1 ==> ([count] + rest)[i] == rest[i - 1];
    }
  }

  /**
   * With a positive batch, either one pass runs or `batch` times the number
   * of passes stays within `limit`; each pass deletes at most `batch` rows.
   */
  lemma {:induction false} PassesBound(expired: nat, limit: int, batch: int)
    requires batch > 0
    ensures |Passes(expired, limit, batch)| == 1
      || batch * |Passes(expired, limit, batch)| <= limit
    ensures Sum(Passes(expired, limit, batch)) <= batch * |Passes(expired, limit, batch)|
    decreases expired
  {
    var count := PassCount(expired, batch);
    var left := limit - batch;
    if count != 0 && batch <= left {
      PassesBound(expired - count, left, batch);
      var rest := Passes(expired - count, left, batch);
      assert Passes(expired, limit, batch) == [count] + rest;
      assert ([count] + rest)[1..] == rest;
      assert batch * (|rest| + 1) == batch * |rest| + batch;
    }
  }

  /** The loop runs at most `max(1, limit / batch)` passes. */
  lemma PassCountBound(expired: nat, limit: int, batch: int)
    requires batch > 0
    ensures |Passes(expired, limit, batch)| <= Max(1, limit / batch)
  {
    PassesBound(expired, limit, batch);
    if |Passes(expired, limit, batch)| != 1 {
      DivAtLeast(|Passes(expired, limit, batch)|, limit, batch);
    }
  }

  /** One invocation never deletes more than `max(batch, limit)` rows. */
  lemma PassesTotal(expired: nat, limit: int, batch: int)
    requires batch > 0
    ensures Sum(Passes(expired, limit, batch)) <= Max(batch, limit)
  {
    PassesBound(expired, limit, batch);
  }

  /**
   * The sweep leaves expired rows behind only when the limit stopped it:
   * every pass was then a full batch and one more would have overrun `limit`.
   */
  lemma {:induction false} PassesStopEarly(expired: nat, limit: int, batch: int)
    requires batch > 0
    ensures Sum(Passes(expired, limit, batch)) < expired ==>
      (forall i :: 0 <= i < |Passes(expired, limit, batch)| ==> Passes(expired, limit, batch)[i] == batch)
      && limit < batch * |Passes(expired, limit, batch)| + batch
    decreases expired
  {
    var count := PassCount(expired, batch);
    var left := limit - batch;
    if count != 0 && batch <= left {
      PassesStopEarly(expired - count, left, batch);
      var rest := Passes(expired - count, left, batch);
      assert Passes(expired, limit, batch) == [count] + rest;
      assert ([count] + rest)[1..] == rest;
      assert batch * (|rest| + 1) == batch * |rest| + batch;
      assert forall i :: 1 <= i < |rest| + 1 ==> ([count] + rest)[i] == rest[i - 1];
    }
  }

  /** When expired rows remain, exactly `max(1, limit / batch)` passes ran. */
  lemma PassCountWhenStopped(expired: nat, limit: int, batch: int)
    requires batch > 0
    requires Sum(Passes(expired, limit, batch)) < expired
    ensures |Passes(expired, limit, batch)| == Max(1, limit / batch)
  {
    PassesBound(expired, limit, batch);
    PassesStopEarly(expired, limit, batch);
    var n := |Passes(expired, limit, batch)|;
    DivBelow(n, limit, batch);
    if n != 1 {
      DivAtLeast(n, limit, batch);
    }
  }

  /** 250 expired rows, limit 1000, batch 100: passes of 100, 100, 50 and a final empty one. */
  lemma PassesExample()
    ensures Passes(250, 1000, 100) == [100, 100, 50, 0]
    ensures Sum(Passes(250, 1000, 100)) == 250
  {
    assert Passes(50, 800, 100) == [50] + Passes(0, 700, 100);
    assert Passes(150, 900, 100) == [100] + Passes(50, 800, 100);
    assert Passes(250, 1000, 100) == [100] + Passes(150, 900, 100);
  }

  /** Some `n` elements of `s`; it only shows that a pass can choose its victims. */
  ghost function Pick(s: set<Uuid>, n: nat): (r: set<Uuid>)
    requires n <= |s|
    ensures r <= s && |r| == n
  {
    if n == 0 then {} else
      var x :| x in s;
      {x} + Pick(s - {x}, n - 1)
  }

  /**
   * `after` is `before` less some rows that had expired at `cutoff`: rows are
   * only ever removed, never changed, and only expired ones.
   */
  ghost predicate Swept(before: map<Uuid, Flow>, after: map<Uuid, Flow>, cutoff: int)
  {
    && after.Keys <= before.Keys
    && (forall id :: id in after ==> after[id] == before[id])
    && (forall id :: id in before && id !in after ==> before[id].expiresAt <= cutoff)
  }

  /** Two sweeps in a row are one sweep. */
  lemma SweptTrans(a: map<Uuid, Flow>, b: map<Uuid, Flow>, c: map<Uuid, Flow>, cutoff: int)
    requires Swept(a, b, cutoff) && Swept(b, c, cutoff)
    ensures Swept(a, c, cutoff)
  {
  }

  /**
   * Removing a set of expired ids from a keyed table is a sweep that removes
   * exactly that many rows and keeps every remaining row under its own id.
   */
  lemma Removal(start: map<Uuid, Flow>, gone: set<Uuid>, cutoff: int)
    requires Keyed(start)
    requires gone <= ExpiredIds(start, cutoff)
    ensures Keyed(start - gone)
    ensures Swept(start, start - gone, cutoff)
    ensures |start.Keys| == |(start - gone).Keys| + |gone|
    ensures ExpiredIds(start - gone, cutoff) == ExpiredIds(start, cutoff) - gone
    ensures |ExpiredIds(start - gone, cutoff)| == |ExpiredIds(start, cutoff)| - |gone|
  {
    assert (start - gone).Keys == start.Keys - gone;
    CardDifference(start.Keys, gone);
    assert ExpiredIds(start - gone, cutoff) == ExpiredIds(start, cutoff) - gone;
    CardDifference(ExpiredIds(start, cutoff), gone);
  }

  lemma CardDifference(a: set<Uuid>, b: set<Uuid>)
    requires b <= a
    ensures |a - b| == |a| - |b|
  {
    assert a == (a - b) + b;
    assert (a - b) * b == {};
  }

  // ---------------------------------------------------------------------
  // The caller's flow object and the store.
  // ---------------------------------------------------------------------

  /** The caller's `*login.Flow`: create and update write into it. */
  class FlowRef {
    var value: Flow

    constructor (f: Flow)
      ensures value == f
    {
      value := f;
    }
  }

  /** The persister's login-flow table, shared by all tenants. */
  class Persister {
    var rows: map<Uuid, Flow>

    ghost predicate Valid()
      reads this
    {
      Keyed(rows)
    }

    constructor ()
      ensures Valid() && rows == map[]
    {
      rows := map[];
    }

    /**
     * Stamps the caller's tenant on the flow and ensures its internal context
     * (both in the caller's object, before the insert), then inserts it. An
     * id already present is a conflict; an unavailable store is an error
     * too; either way nothing is inserted.
     */
    method CreateLoginFlow(tenant: Uuid, r: FlowRef) returns (err: Option<StoreError>)
      requires Valid()
      modifies this, r
      ensures Valid()
      ensures r.value == EnsureInternalContext(old(r.value)).(nid := tenant)
      ensures err.Some? ==> (err.value == Conflict || err.value == StoreUnavailable) && rows == old(rows)
      ensures err != Some(StoreUnavailable) ==> (err.None? <==> old(r.value.id) !in old(rows))
      ensures err.None? ==> rows == old(rows)[r.value.id := r.value]
      ensures err.None? ==> Lookup(rows, tenant, r.value.id) == Ok(r.value)
    {
      r.value := r.value.(nid := tenant);
      r.value := EnsureInternalContext(r.value);
      var unavailable: bool :| true;
      if unavailable {
        return Some(StoreUnavailable);
      }
      if r.value.id in rows {
        return Some(Conflict);
      }
      rows := rows[r.value.id := r.value];
      return None;
    }

    /**
     * Ensures the caller's internal context, then writes a copy whose NID is
     * the caller's tenant, whatever the caller's flow holds, to the row with
     * that id and tenant. The caller's own NID is left as it was; a row that
     * is missing or owned by another tenant is not found, and an unavailable
     * store is an error; then nothing changes.
     */
    method UpdateLoginFlow(tenant: Uuid, r: FlowRef) returns (err: Option<StoreError>)
      requires Valid()
      modifies this, r
      ensures Valid()
      ensures r.value == EnsureInternalContext(old(r.value))
      ensures r.value.nid == old(r.value.nid)
      ensures err.Some? ==> (err.value == NotFound || err.value == StoreUnavailable) && rows == old(rows)
      ensures err != Some(StoreUnavailable) ==> (err.None? <==> Lookup(old(rows), tenant, r.value.id).Ok?)
      ensures err.None? ==> rows == old(rows)[r.value.id := r.value.(nid := tenant)]
      ensures forall k :: k in old(rows) && old(rows)[k].nid != tenant ==> k in rows && rows[k] == old(rows)[k]
    {
      r.value := EnsureInternalContext(r.value);
      var cp := r.value.(nid := tenant);
      err := Update(cp);
    }

    /**
     * Replaces the row keyed by the copy's id and NID; not found when there
     * is none, an error when the store is unavailable, and then no change.
     */
    method Update(cp: Flow) returns (err: Option<StoreError>)
      requires Valid()
      modifies this
      ensures Valid()
      ensures err.Some? ==> (err.value == NotFound || err.value == StoreUnavailable) && rows == old(rows)
      ensures err != Some(StoreUnavailable) ==> (err.None? <==> Lookup(old(rows), cp.nid, cp.id).Ok?)
      ensures err.None? ==> rows == old(rows)[cp.id := cp]
    {
      var unavailable: bool :| true;
      if unavailable {
        return Some(StoreUnavailable);
      }
      if cp.id in rows && rows[cp.id].nid == cp.nid {
        rows := rows[cp.id := cp];
        return None;
      }
      return Some(NotFound);
    }

    /**
     * The flow with this id, only if the caller's tenant owns it: whenever
     * the store answers, the result is `Lookup`'s, so a foreign flow and a
     * missing one give the same not-found error.
     */
    method GetLoginFlow(tenant: Uuid, id: Uuid) returns (r: Result<Flow, StoreError>)
      requires Valid()
      ensures r != Err(StoreUnavailable) ==> r == Lookup(rows, tenant, id)
      ensures r.Ok? ==> r.value == rows[id] && r.value.id == id && r.value.nid == tenant
      ensures r.Err? ==> r.error == NotFound || r.error == StoreUnavailable
    {
      var unavailable: bool :| true;
      if unavailable {
        return Err(StoreUnavailable);
      }
      return Lookup(rows, tenant, id);
    }

    /**
     * In one atomic step: reads the flow as `GetLoginFlow` does, sets its
     * refresh flag and saves it back with every column but `nid`. A read
     * that fails yields the read's error, and a save the store cannot take
     * is an error too; either way nothing changes.
     */
    method ForceLoginFlow(tenant: Uuid, id: Uuid) returns (err: Option<StoreError>)
      requires Valid()
      modifies this
      ensures Valid()
      ensures err.None? ==> rows == Forced(old(rows), tenant, id)
      ensures err.Some? ==> (err.value == NotFound || err.value == StoreUnavailable) && rows == old(rows)
      ensures err != Some(StoreUnavailable) ==> (err.None? <==> Lookup(old(rows), tenant, id).Ok?)
      ensures err.None? ==> rows[id].refresh && rows[id] == old(rows)[id].(refresh := true)
      ensures forall k :: k in old(rows) && k != id ==> k in rows && rows[k] == old(rows)[k]
    {
      var lr := GetLoginFlow(tenant, id);
      if lr.Err? {
        return Some(lr.error);
      }
      var f := lr.value.(refresh := true);
      var unavailable: bool :| true;
      if unavailable {
        return Some(StoreUnavailable);
      }
      // Save(lr, "nid"): the stored nid column is kept, every other column is written
      rows := rows[f.id := f.(nid := rows[f.id].nid)];
      return None;
    }

    /**
     * One bounded `DELETE ... WHERE expires_at <= cutoff LIMIT batch`: either
     * the store fails and nothing changes, or it removes `PassCount` of the
     * rows that expired at `cutoff`, of any tenant, and reports how many.
     * Which rows (the ghost `victims`) and whether the store fails are not
     * determined.
     */
    method DeleteExpiredBatch(cutoff: int, batch: int) returns (r: Result<nat, StoreError>, ghost victims: set<Uuid>)
      requires Valid()
      modifies this
      ensures Valid() && Swept(old(rows), rows, cutoff)
      ensures |old(rows).Keys| == |rows.Keys| + |victims|
      ensures r.Err? ==> r.error == StoreUnavailable && rows == old(rows) && victims == {}
      ensures r.Ok? ==> r.value == PassCount(|ExpiredIds(old(rows), cutoff)|, batch)
      ensures victims <= ExpiredIds(old(rows), cutoff) && |victims| == (if r.Ok? then r.value else 0)
      ensures rows == old(rows) - victims
      ensures |ExpiredIds(rows, cutoff)| == |ExpiredIds(old(rows), cutoff)| - |victims|
    {
      var unavailable: bool :| true;
      if unavailable {
        assert rows - {} == rows;
        return Err(StoreUnavailable), {};
      }
      var expired := ExpiredIds(rows, cutoff);
      var count := PassCount(|expired|, batch);
      ghost var chosen := Pick(expired, count);
      var doomed: set<Uuid> :| doomed <= expired && |doomed| == count;
      Removal(rows, doomed, cutoff);
      rows := rows - doomed;
      return Ok(count), doomed;
    }

    /**
     * The expiry sweep: lowers `limit` by `batch` before each pass, returns
     * the store's error from the first failing pass, stops right after a
     * pass that deleted nothing, and otherwise goes on while `batch` is at
     * most what is left of `limit`. Without a failure it runs exactly the
     * passes of `plan` and deletes their sum; a failure ends it after the
     * `passes` passes before it, having deleted exactly what those did.
     * Either way only expired rows go, whatever their tenant.
     */
    method DeleteExpiredLoginFlows(cutoff: int, limit: int, batch: int)
      returns (err: Option<StoreError>, ghost passes: nat, ghost plan: seq<nat>)
      requires Valid()
      modifies this
      ensures Valid()
      ensures plan == Passes(|ExpiredIds(old(rows), cutoff)|, limit, batch)
      ensures Swept(old(rows), rows, cutoff)
      ensures err.None? ==> passes == |plan| && |old(rows).Keys| == |rows.Keys| + Sum(plan)
      ensures err.Some? ==>
        err.value == StoreUnavailable && passes < |plan|
        && |old(rows).Keys| == |rows.Keys| + Sum(plan[..passes])
        && |old(rows).Keys| <= |rows.Keys| + Sum(plan)
    {
      ghost var expired := |ExpiredIds(rows, cutoff)|;
      plan := Passes(expired, limit, batch);
      ghost var start := rows;
      var left := limit;
      var pass: nat := 0;
      assert plan[pass..] == plan;
      // The source's `for ok := true; ok; ok = batch <= limit`: the test
      // that ends it sits at the end of the body.
      while true
        invariant Valid()
        invariant expired == |ExpiredIds(rows, cutoff)|
        invariant Swept(start, rows, cutoff)
        invariant pass < |plan| && plan[pass..] == Passes(expired, left, batch)
        invariant |start.Keys| == |rows.Keys| + Sum(plan[..pass])
        decreases expired
      {
        ghost var limitBefore := left;
        ghost var before := rows;
        left := left - batch;
        var res;
        ghost var victims;
        res, victims := DeleteExpiredBatch(cutoff, batch);
        SweptTrans(start, before, rows, cutoff);
        if res.Err? {
          SumPrefix(plan, pass);
          return Some(res.error), pass, plan;
        }
        var count := res.value;
        PlanStep(expired, expired - count, limitBefore, left, batch, pass, count, plan);
        expired := expired - count;
        pass := pass + 1;
        if count == 0 || !(batch <= left) {
          break;
        }
      }
      assert plan[..pass] == plan;
      err, passes := None, pass;
    }
  }
}
