/**
 * The PostgreSQL storage adapter (repository/postgres_storage/subscription.go
 * and its older revision under subscriptions_backend/), as an in-memory table
 * keyed by subscription id. The operations do what their SQL does: the WHERE
 * predicates of the two queries, INSERT, UPDATE with COALESCE, DELETE with
 * RETURNING, and the EXISTS probe.
 */
module Storage {
  import opened Wrappers
  import opened Errors
  import opened Domain

  const NotFoundMessage := "subscription not found"

  /** What Get, Patch and Delete report for a missing id. */
  const NotFound := Coded(ErrNotFound(NotFoundMessage))

  /** Every row is stored under its own id. */
  ghost predicate Keyed(rows: map<Uuid, Subscription>)
  {
    forall id :: id in rows ==> rows[id].id == id
  }

  /**
   * The list query's WHERE clause: one AND-ed predicate per present filter
   * field. `end_date <= bound` is unknown, so not selected, for a NULL end_date.
   */
  predicate MatchesList(f: SubscriptionFilter, s: Subscription)
    ensures f == EmptyFilter ==> MatchesList(f, s)
    ensures f.endDate.Some? && s.endDate.None? ==> !MatchesList(f, s)
  {
    && (f.userId.Some? ==> s.userId == f.userId.value)
    && (f.serviceName.Some? ==> s.serviceName == f.serviceName.value)
    && (f.price.Some? ==> s.price == f.price.value)
    && (f.startDate.Some? ==> !Before(s.startDate, f.startDate.value))
    && (f.endDate.Some? ==> s.endDate.Some? && !After(s.endDate.value, f.endDate.value))
  }

  /** `start_date <= periodEnd AND (end_date IS NULL OR end_date >= periodStart)` */
  predicate OverlapsPeriod(s: Subscription, periodStart: Date, periodEnd: Date)
    ensures s.endDate.None? ==> (OverlapsPeriod(s, periodStart, periodEnd) <==> !After(s.startDate, periodEnd))
  {
    !After(s.startDate, periodEnd) && (s.endDate.None? || !Before(s.endDate.value, periodStart))
  }

  /** The total-cost query's WHERE clause: the overlap test and the optional equalities. */
  predicate MatchesTotal(f: TotalCostFilter, s: Subscription)
    ensures MatchesTotal(f, s) ==> OverlapsPeriod(s, f.startDate, f.endDate)
    ensures f.userId.None? && f.serviceName.None? ==>
              (MatchesTotal(f, s) <==> OverlapsPeriod(s, f.startDate, f.endDate))
  {
    && OverlapsPeriod(s, f.startDate, f.endDate)
    && (f.userId.Some? ==> s.userId == f.userId.value)
    && (f.serviceName.Some? ==> s.serviceName == f.serviceName.value)
  }

  /** Which query a scan of the table answers. */
  datatype Criterion = ListQuery(filter: SubscriptionFilter) | TotalCostQuery(costFilter: TotalCostFilter)

  predicate Keeps(c: Criterion, s: Subscription)
  {
    match c
    case ListQuery(f) => MatchesList(f, s)
    case TotalCostQuery(f) => MatchesTotal(f, s)
  }

  /** Some element of `result` has id `id`. */
  predicate Listed(result: seq<Subscription>, id: Uuid)
  {
    exists i :: 0 <= i < |result| && result[i].id == id
  }

  /** Every element of `result` is a row of the table that the criterion keeps. */
  ghost predicate Sound(result: seq<Subscription>, rows: map<Uuid, Subscription>, c: Criterion)
  {
    forall i :: 0 <= i < |result| ==> result[i].id in rows && rows[result[i].id] == result[i] && Keeps(c, result[i])
  }

  /** Every row in `ids` that the criterion keeps is in `result`. */
  ghost predicate Complete(result: seq<Subscription>, rows: map<Uuid, Subscription>, ids: set<Uuid>, c: Criterion)
  {
    forall id :: id in rows && id in ids && Keeps(c, rows[id]) ==> Listed(result, id)
  }

  /** No row appears twice. */
  ghost predicate Distinct(result: seq<Subscription>)
  {
    forall i, j :: 0 <= i < j < |result| ==> result[i].id != result[j].id
  }

  /**
   * `result` is what a SELECT returns: every row of the table that the
   * criterion keeps, each exactly once, in an order SQL leaves open.
   */
  ghost predicate Selects(result: seq<Subscription>, rows: map<Uuid, Subscription>, c: Criterion)
  {
    Sound(result, rows, c) && Complete(result, rows, rows.Keys, c) && Distinct(result)
  }

  /** The i-th element of `result` with its k-th element dropped. */
  lemma DropIndex(result: seq<Subscription>, k: nat)
    requires k < |result|
    ensures |result[..k] + result[k + 1..]| == |result| - 1
    ensures forall i :: 0 <= i < |result| - 1 ==>
              (result[..k] + result[k + 1..])[i] == if i < k then result[i] else result[i + 1]
  {
  }

  lemma SoundWithout(result: seq<Subscription>, k: nat, rows: map<Uuid, Subscription>, c: Criterion)
    requires Sound(result, rows, c) && Distinct(result) && k < |result|
    ensures Sound(result[..k] + result[k + 1..], rows - {result[k].id}, c)
  {
    var r := result[..k] + result[k + 1..];
    DropIndex(result, k);
    forall i | 0 <= i < |r|
      ensures r[i].id in rows - {result[k].id} && (rows - {result[k].id})[r[i].id] == r[i] && Keeps(c, r[i])
    {
      var j := if i < k then i else i + 1;
      assert r[i] == result[j] && result[j].id != result[k].id;
    }
  }

  lemma CompleteWithout(result: seq<Subscription>, k: nat, rows: map<Uuid, Subscription>, c: Criterion)
    requires Complete(result, rows, rows.Keys, c) && k < |result|
    ensures Complete(result[..k] + result[k + 1..], rows - {result[k].id}, (rows - {result[k].id}).Keys, c)
  {
    var r := result[..k] + result[k + 1..];
    var rows' := rows - {result[k].id};
    DropIndex(result, k);
    forall id | id in rows' && id in rows'.Keys && Keeps(c, rows'[id])
      ensures Listed(r, id)
    {
      assert rows'[id] == rows[id];
      assert Listed(result, id);
      var i :| 0 <= i < |result| && result[i].id == id;
      if i < k { assert r[i].id == id; } else { assert r[i - 1].id == id; }
    }
  }

  lemma DistinctWithout(result: seq<Subscription>, k: nat)
    requires Distinct(result) && k < |result|
    ensures Distinct(result[..k] + result[k + 1..])
  {
    DropIndex(result, k);
  }

  lemma SelectsWithout(result: seq<Subscription>, k: nat, rows: map<Uuid, Subscription>, c: Criterion)
    requires Selects(result, rows, c) && k < |result|
    ensures Selects(result[..k] + result[k + 1..], rows - {result[k].id}, c)
  {
    SoundWithout(result, k, rows, c);
    CompleteWithout(result, k, rows, c);
    DistinctWithout(result, k);
  }

  /** Two answers to the same query over the same table hold the same rows. */
  lemma {:induction false} SelectionsArePermutations(r1: seq<Subscription>, r2: seq<Subscription>, rows: map<Uuid, Subscription>, c: Criterion)
    requires Selects(r1, rows, c) && Selects(r2, rows, c)
    ensures multiset(r1) == multiset(r2)
    decreases |r1|
  {
    if r1 == [] {
      assert r2 == [] || Listed(r1, r2[0].id);
    } else {
      var n := |r1| - 1;
      var x := r1[n];
      assert x.id in rows && Keeps(c, rows[x.id]);
      assert Listed(r2, x.id);
      var j :| 0 <= j < |r2| && r2[j].id == x.id;
      assert r2[j] == x;
      SelectsWithout(r1, n, rows, c);
      SelectsWithout(r2, j, rows, c);
      assert r1[..n] + r1[n + 1..] == r1[..n];
      var rest := r2[..j] + r2[j + 1..];
      SelectionsArePermutations(r1[..n], rest, rows - {x.id}, c);
      SplicedPermutation(r1, r2, j);
    }
  }

  /** Putting the same element back at the end of one sequence and inside the other keeps them permutations. */
  lemma SplicedPermutation<T>(a: seq<T>, b: seq<T>, j: nat)
    requires a != [] && j < |b| && a[|a| - 1] == b[j]
    requires multiset(a[..|a| - 1]) == multiset(b[..j] + b[j + 1..])
    ensures multiset(a) == multiset(b)
  {
    var x := b[j];
    calc {
      multiset(a);
      { assert a == a[..|a| - 1] + [x]; }
      multiset(a[..|a| - 1]) + multiset{x};
      multiset(b[..j]) + multiset(b[j + 1..]) + multiset{x};
      { assert b == b[..j] + [x] + b[j + 1..]; }
      multiset(b);
    }
  }

  /** SQL COALESCE(given, stored): the first of the two that is not NULL. */
  function Coalesce<T>(given: Option<T>, stored: Option<T>): (c: Option<T>)
    ensures c == given || c == stored
    ensures c.None? <==> given.None? && stored.None?
    ensures given.Some? ==> c == given
  {
    if given.Some? then given else stored
  }

  /**
   * The row after `UPDATE ... SET service_name = COALESCE($1, service_name),
   * price = COALESCE($2, price), end_date = COALESCE($3, end_date)`. $1 and $2
   * are bound to the patch's string and int, which are never NULL; only a nil
   * EndDate leaves the stored value.
   */
  function ApplyPatch(row: Subscription, patch: Subscription): (r: Subscription)
    ensures r.id == row.id && r.userId == row.userId && r.startDate == row.startDate
    ensures r.serviceName == patch.serviceName && r.price == patch.price
    ensures r.endDate == if patch.endDate.Some? then patch.endDate else row.endDate
  {
    row.(serviceName := Coalesce(Some(patch.serviceName), Some(row.serviceName)).value,
         price := Coalesce(Some(patch.price), Some(row.price)).value,
         endDate := Coalesce(patch.endDate, row.endDate))
  }

  /**
   * A PATCH body holding only a price, turned into a domain record, leaves
   * ServiceName "" (see Requests.PatchToDomain), and ApplyPatch writes that
   * empty name over the stored one.
   */
  lemma PatchOnlyPriceClearsServiceName(row: Subscription)
    requires row.serviceName == "Netflix" && row.price == 500
    ensures var patch := ZeroSubscription.(id := row.id, price := 700);
            ApplyPatch(row, patch).serviceName == "" && ApplyPatch(row, patch) != row.(price := 700)
  {
  }

  /** The merge the COALESCE statement is written for: an absent field keeps the stored value. */
  function MergePatch(row: Subscription, serviceName: Option<string>, price: Option<int>, endDate: Option<Date>): Subscription
  {
    row.(serviceName := Coalesce(serviceName, Some(row.serviceName)).value,
         price := Coalesce(price, Some(row.price)).value,
         endDate := Coalesce(endDate, row.endDate))
  }

  lemma MergePatchKeepsUnsetFields(row: Subscription, serviceName: Option<string>, price: Option<int>, endDate: Option<Date>)
    ensures var r := MergePatch(row, serviceName, price, endDate);
      && r.id == row.id && r.userId == row.userId && r.startDate == row.startDate
      && r.serviceName == (if serviceName.Some? then serviceName.value else row.serviceName)
      && r.price == (if price.Some? then price.value else row.price)
      && r.endDate == (if endDate.Some? then endDate else row.endDate)
    ensures MergePatch(row, None, Some(700), None) == row.(price := 700)
  {
  }

  /** The UPDATE as written is the intended merge with every field present: the record's name and price are never NULL. */
  lemma ApplyPatchBindsEveryField(row: Subscription, patch: Subscription)
    ensures ApplyPatch(row, patch) == MergePatch(row, Some(patch.serviceName), Some(patch.price), patch.endDate)
  {
  }

  /** The subscriptions table. */
  class SubscriptionDB {
    var rows: map<Uuid, Subscription>
    /** A database/sql failure every statement reports, or None while the database answers. */
    var failure: Option<string>
    /** The driver's text for an INSERT whose id is already a primary key; the driver owns its wording. */
    const duplicateKeyError: string

    ghost predicate Valid()
      reads this
    {
      Keyed(rows)
    }

    constructor (initial: map<Uuid, Subscription>, failure: Option<string>, duplicateKeyError: string)
      requires Keyed(initial)
      ensures Valid() && rows == initial && this.failure == failure
      ensures this.duplicateKeyError == duplicateKeyError
    {
      rows := initial;
      this.failure := failure;
      this.duplicateKeyError := duplicateKeyError;
    }

    /** INSERT of all six columns; the id is the primary key. */
    method CreateSubscription(s: Subscription) returns (err: Option<Error>)
      requires Valid()
      modifies this`rows
      ensures Valid()
      ensures err == if failure.Some? then Some(Driver(failure.value))
                     else if s.id in old(rows) then Some(Driver(duplicateKeyError))
                     else None
      ensures rows == if err.None? then old(rows)[s.id := s] else old(rows)
    {
      if failure.Some? {
        return Some(Driver(failure.value));
      }
      if s.id in rows {
        return Some(Driver(duplicateKeyError));
      }
      rows := rows[s.id := s];
      err := None;
    }

    /** SELECT by id: NotFound on no rows. */
    method GetSubscriptionByID(id: Uuid) returns (r: Result<Subscription, Error>)
      requires Valid()
      ensures failure.Some? ==> r == Err(Driver(failure.value))
      ensures failure.None? && id !in rows ==> r == Err(NotFound)
      ensures failure.None? && id in rows ==> r == Ok(rows[id])
      ensures r.Ok? ==> r.value.id == id
    {
      if failure.Some? {
        return Err(Driver(failure.value));
      }
      if id !in rows {
        return Err(NotFound);
      }
      r := Ok(rows[id]);
    }

    /** `SELECT EXISTS(...)`; a failing query leaves `exists` false, so it answers false. */
    method IsExist(id: Uuid) returns (b: bool)
      ensures b <==> failure.None? && id in rows
    {
      b := failure.None? && id in rows;
    }

    /** Runs a SELECT and collects its rows as the `rows.Next()` loop does, in whatever order they come. */
    method Query(c: Criterion) returns (result: seq<Subscription>)
      requires Valid()
      ensures Selects(result, rows, c)
    {
      var remaining := rows.Keys;
      result := [];
      while remaining != {}
        invariant remaining <= rows.Keys
        invariant Sound(result, rows, c) && Distinct(result)
        invariant forall i :: 0 <= i < |result| ==> result[i].id !in remaining
        invariant Complete(result, rows, rows.Keys - remaining, c)
        decreases remaining
      {
        var id :| id in remaining;
        var row := rows[id];
        if Keeps(c, row) {
          forall other | Listed(result, other)
            ensures Listed(result + [row], other)
          {
            var i :| 0 <= i < |result| && result[i].id == other;
            assert (result + [row])[i].id == other;
          }
          assert (result + [row])[|result|].id == id;
          result := result + [row];
        }
        remaining := remaining - {id};
      }
    }

    method GetListOfSubscriptions(filter: SubscriptionFilter) returns (r: Result<seq<Subscription>, Error>)
      requires Valid()
      ensures failure.Some? ==> r == Err(Driver(failure.value))
      ensures failure.None? ==> r.Ok? && Selects(r.value, rows, ListQuery(filter))
    {
      if failure.Some? {
        return Err(Driver(failure.value));
      }
      var list := Query(ListQuery(filter));
      r := Ok(list);
    }

    /** The rows a total-cost query bills: those overlapping the period and matching the equalities. */
    method GetTotalCost(filter: TotalCostFilter) returns (r: Result<seq<Subscription>, Error>)
      requires Valid()
      ensures failure.Some? ==> r == Err(Driver(failure.value))
      ensures failure.None? ==> r.Ok? && Selects(r.value, rows, TotalCostQuery(filter))
    {
      if failure.Some? {
        return Err(Driver(failure.value));
      }
      var subs := Query(TotalCostQuery(filter));
      r := Ok(subs);
    }

    /** Existence check, then the COALESCE update of the one row. */
    method PatchSubscriptionByID(s: Subscription) returns (err: Option<Error>)
      requires Valid()
      modifies this`rows
      ensures Valid()
      ensures err == if failure.None? && s.id in old(rows) then None else Some(NotFound)
      ensures rows == if err.None? then old(rows)[s.id := ApplyPatch(old(rows)[s.id], s)] else old(rows)
    {
      var present := IsExist(s.id);
      if !present {
        return Some(NotFound);
      }
      rows := rows[s.id := ApplyPatch(rows[s.id], s)];
      err := None;
    }

    /**
     * The patch the UPDATE is written for: NULL is bound for every field the
     * request leaves out, so COALESCE keeps the stored value of each of them.
     */
    method MergeSubscriptionByID(id: Uuid, serviceName: Option<string>, price: Option<int>, endDate: Option<Date>)
      returns (err: Option<Error>)
      requires Valid()
      modifies this`rows
      ensures Valid()
      ensures err == if failure.None? && id in old(rows) then None else Some(NotFound)
      ensures rows == if err.None? then old(rows)[id := MergePatch(old(rows)[id], serviceName, price, endDate)] else old(rows)
    {
      var present := IsExist(id);
      if !present {
        return Some(NotFound);
      }
      rows := rows[id := MergePatch(rows[id], serviceName, price, endDate)];
      err := None;
    }

    /** Existence check, then DELETE ... RETURNING scanned into the caller's record. */
    method DeleteSubscriptionByID(subs: SubscriptionRef) returns (err: Option<Error>)
      requires Valid()
      modifies this`rows, subs
      ensures Valid()
      ensures err == if failure.None? && old(subs.sub).id in old(rows) then None else Some(NotFound)
      ensures err.Some? ==> rows == old(rows) && subs.sub == old(subs.sub)
      ensures err.None? ==> rows == old(rows) - {old(subs.sub).id} && subs.sub == old(rows)[old(subs.sub).id]
    {
      var id := subs.sub.id;
      var present := IsExist(id);
      if !present {
        return Some(NotFound);
      }
      var row := rows[id];
      rows := rows - {id};
      subs.sub := subs.sub.(serviceName := row.serviceName, price := row.price, userId := row.userId,
                            startDate := row.startDate, endDate := row.endDate);
      err := None;
    }
  }
}
