/**
 * The service layer (usecases/service/subscription.go, and its older
 * revision subscriptions_backend/usecases/service/subscription.go): input
 * validation before the store is reached, delegation to the store with its
 * errors passed through unchanged, and the total-cost loop.
 */
module Service {
  import opened Wrappers
  import opened Errors
  import opened Domain
  import opened CostEngine
  import opened Storage

  const NilFilterMessage := "failed to get list by nil filter"
  const InvertedRangeMessage := "start date cannot be after end date"

  /** The list filter bounds both dates and its start lies after its end. */
  predicate InvertedList(f: SubscriptionFilter)
    ensures InvertedList(f) ==>
              forall s: Subscription :: MatchesList(f, s) ==> s.endDate.Some? && Before(s.endDate.value, s.startDate)
  {
    f.startDate.Some? && f.endDate.Some? && After(f.startDate.value, f.endDate.value)
  }

  /** Service.Subcription: the use cases over one store. */
  class SubscriptionService {
    const repo: SubscriptionDB

    ghost predicate Valid()
      reads this, repo
    {
      repo.Valid()
    }

    constructor (repo: SubscriptionDB)
      requires repo.Valid()
      ensures this.repo == repo && Valid()
    {
      this.repo := repo;
    }

    /**
     * Writes the freshly minted id (uuid.New, passed in as `minted`) into the
     * caller's record, stores the record, and returns the id, or uuid.Nil with
     * the store's error. The id stays in the record either way.
     */
    method CreateSubscription(subs: SubscriptionRef, minted: Uuid) returns (id: Uuid, err: Option<Error>)
      requires Valid()
      modifies subs, repo`rows
      ensures Valid()
      ensures subs.sub == old(subs.sub).(id := minted)
      ensures err == if repo.failure.Some? then Some(Driver(repo.failure.value))
                     else if minted in old(repo.rows) then Some(Driver(repo.duplicateKeyError))
                     else None
      ensures err.None? ==> id == minted && repo.rows == old(repo.rows)[minted := subs.sub]
      ensures err.Some? ==> id == NilUuid && repo.rows == old(repo.rows)
    {
      subs.sub := subs.sub.(id := minted);
      err := repo.CreateSubscription(subs.sub);
      if err.Some? {
        return NilUuid, err;
      }
      id := minted;
    }

    method GetSubscriptionByID(id: Uuid) returns (r: Result<Subscription, Error>)
      requires Valid()
      ensures repo.failure.Some? ==> r == Err(Driver(repo.failure.value))
      ensures repo.failure.None? && id !in repo.rows ==> r == Err(NotFound)
      ensures repo.failure.None? && id in repo.rows ==> r == Ok(repo.rows[id])
    {
      r := repo.GetSubscriptionByID(id);
    }

    /** Patches the row, then reads it back; a failed patch is reported as it is. */
    method PatchSubscriptionByID(subs: Subscription) returns (r: Result<Subscription, Error>)
      requires Valid()
      modifies repo`rows
      ensures Valid()
      ensures old(repo.failure).None? && subs.id in old(repo.rows) ==>
                r == Ok(ApplyPatch(old(repo.rows)[subs.id], subs))
                && repo.rows == old(repo.rows)[subs.id := r.value]
      ensures !(old(repo.failure).None? && subs.id in old(repo.rows)) ==>
                r == Err(NotFound) && repo.rows == old(repo.rows)
    {
      var err := repo.PatchSubscriptionByID(subs);
      if err.Some? {
        return Err(err.value);
      }
      r := repo.GetSubscriptionByID(subs.id);
    }

    /** Deletes the row named by the caller's record, which receives the row's last values. */
    method DeleteSubscriptionByID(subs: SubscriptionRef) returns (r: Result<Subscription, Error>)
      requires Valid()
      modifies repo`rows, subs
      ensures Valid()
      ensures old(repo.failure).None? && old(subs.sub).id in old(repo.rows) ==>
                r == Ok(old(repo.rows)[old(subs.sub).id]) && subs.sub == r.value
                && repo.rows == old(repo.rows) - {old(subs.sub).id}
      ensures !(old(repo.failure).None? && old(subs.sub).id in old(repo.rows)) ==>
                r == Err(NotFound) && repo.rows == old(repo.rows) && subs.sub == old(subs.sub)
    {
      var err := repo.DeleteSubscriptionByID(subs);
      if err.Some? {
        return Err(err.value);
      }
      r := Ok(subs.sub);
    }

    /** A nil filter and an inverted date range are rejected before the store is queried. */
    method GetListOfSubscriptions(filter: Option<SubscriptionFilter>) returns (r: Result<seq<Subscription>, Error>)
      requires Valid()
      ensures filter.None? ==> r == Err(BadRequest(NilFilterMessage))
      ensures filter.Some? && InvertedList(filter.value) ==> r == Err(BadRequest(InvertedRangeMessage))
      ensures filter.Some? && !InvertedList(filter.value) && repo.failure.Some? ==> r == Err(Driver(repo.failure.value))
      ensures filter.Some? && !InvertedList(filter.value) && repo.failure.None? ==>
                r.Ok? && Selects(r.value, repo.rows, ListQuery(filter.value))
    {
      if filter.None? {
        return Err(BadRequest(NilFilterMessage));
      }
      var f := filter.value;
      if f.startDate.Some? && f.endDate.Some? && After(f.startDate.value, f.endDate.value) {
        return Err(BadRequest(InvertedRangeMessage));
      }
      r := repo.GetListOfSubscriptions(f);
    }

    /**
     * The cost of the subscriptions the store selects, each clamped to the
     * period, summed in the order the rows arrive. A nil filter (reported with
     * the list operation's message, as the source does) and a start after the
     * end are rejected first; equal dates are accepted.
     */
    method GetTotalCost(filter: Option<TotalCostFilter>) returns (total: int, err: Option<Error>)
      requires Valid()
      ensures filter.None? ==> total == 0 && err == Some(BadRequest(NilFilterMessage))
      ensures filter.Some? && After(filter.value.startDate, filter.value.endDate) ==>
                total == 0 && err == Some(BadRequest(InvertedRangeMessage))
      ensures filter.Some? && !After(filter.value.startDate, filter.value.endDate) && repo.failure.Some? ==>
                total == 0 && err == Some(Driver(repo.failure.value))
      ensures filter.Some? && !After(filter.value.startDate, filter.value.endDate) && repo.failure.None? ==>
                err.None?
                && exists rs :: Selects(rs, repo.rows, TotalCostQuery(filter.value))
                                && total == SumCosts(rs, filter.value.startDate, filter.value.endDate)
    {
      if filter.None? {
        return 0, Some(BadRequest(NilFilterMessage));
      }
      var f := filter.value;
      if After(f.startDate, f.endDate) {
        return 0, Some(BadRequest(InvertedRangeMessage));
      }
      var subs := repo.GetTotalCost(f);
      if subs.Err? {
        return 0, Some(subs.error);
      }
      var rows := subs.value;
      total := 0;
      var i := 0;
      while i < |rows|
        invariant 0 <= i <= |rows|
        invariant total == SumCosts(rows[..i], f.startDate, f.endDate)
      {
        assert rows[..i + 1][..i] == rows[..i];
        total := total + CostForPeriod(rows[i], f.startDate, f.endDate);
        i := i + 1;
      }
      assert rows[..|rows|] == rows;
      err := None;
    }
  }

  /** Any two answers the store may give to a total-cost query cost the same: the order of the rows does not matter. */
  lemma TotalCostIndependentOfOrder(r1: seq<Subscription>, r2: seq<Subscription>, rows: map<Uuid, Subscription>, f: TotalCostFilter)
    requires Selects(r1, rows, TotalCostQuery(f)) && Selects(r2, rows, TotalCostQuery(f))
    ensures SumCosts(r1, f.startDate, f.endDate) == SumCosts(r2, f.startDate, f.endDate)
  {
    SelectionsArePermutations(r1, r2, rows, TotalCostQuery(f));
    SumCostsPermutation(r1, r2, f.startDate, f.endDate);
  }
}
