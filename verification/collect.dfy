/** The page-by-page collection loop of one query (`search_and_store`): it takes nodes
    until the cap is met, flushes the pending records to the store once 200 of them are
    pending, stops on the cap or on the last page, sleeps before the next request when
    the rate limit runs low, and flushes the remainder at the end. */
module Collector {
  import opened Outcomes
  import opened Time
  import opened Records
  import opened RepoStore
  import GraphQLClient

  /** `first=100` */
  const PageSize: int := 100
  /** Pending records are flushed once there are at least this many. */
  const FlushThreshold: nat := 200
  /** A remaining budget below this makes the loop sleep until the reset. */
  const LowRemaining: int := 100
  /** Seconds added to the whole seconds left before the reset. */
  const SleepMarginSeconds: nat := 5

  /** The `rateLimit` object of a page; `resetAt` is None when missing or empty. */
  datatype RateLimit = RateLimit(remaining: Option<int>, resetAt: Option<Instant>)

  /** One page of search results: its nodes, its `pageInfo`, and its `rateLimit`. */
  datatype Page = Page(nodes: seq<RepoNode>, hasNextPage: bool, endCursor: Option<string>, rateLimit: RateLimit)

  /** What one `search_repos_page` call comes back with: the page it returns or what
      it raises (the outcome of `GraphQLClient.Post`), and the UTC clock reading once
      the call has returned. */
  datatype Reply = Reply(result: Result<Page, GraphQLClient.CallError>, now: Instant)

  /** One pass of the loop: the variables sent, the page received, how many of its
      nodes were taken, the batch flushed (if any), and the sleep before the next
      request (if any). */
  datatype Iteration = Iteration(
    request: GraphQLClient.Variables,
    page: Page,
    taken: nat,
    flushed: Option<seq<Record>>,
    sleptFor: Option<nat>)

  /** Why a collection ended without a count: the call raised, a batch upsert raised
      (carrying the batch it could not store), the rate-limit check raised, or no
      further reply exists. */
  datatype CrawlError =
    | ApiFailed(error: GraphQLClient.CallError)
    | StoreFailed(dbError: DbError, batch: seq<Record>)
    | PauseRaised(raised: PauseError)
    | NoReply

  /** The whole run: the count returned (or the error), every completed pass, the
      final flush (if any), and the table as left. */
  datatype Report = Report(
    outcome: Result<nat, CrawlError>,
    iterations: seq<Iteration>,
    finalFlush: Option<seq<Record>>,
    store: Table)

  /** The sleep before the next request: when fewer than 100 points remain and the
      reset lies ahead, the whole seconds until the reset plus 5. */
  function RateLimitPause(rl: RateLimit, now: Instant): (s: Option<nat>)
    ensures s.Some? <==>
      rl.remaining.Some? && rl.remaining.value < LowRemaining && rl.resetAt.Some? && rl.resetAt.value > now
    ensures s.Some? ==>
      (s.value - SleepMarginSeconds) * MicrosPerSecond <= rl.resetAt.value - now
      < (s.value - SleepMarginSeconds + 1) * MicrosPerSecond
  {
    if rl.remaining.Some? && rl.remaining.value < LowRemaining && rl.resetAt.Some? && rl.resetAt.value > now then
      Some((rl.resetAt.value - now) / MicrosPerSecond + SleepMarginSeconds)
    else
      None
  }

  /** Sleeping for the pause ends at least four seconds after the reset. */
  lemma PauseOutlastsReset(rl: RateLimit, now: Instant)
    requires RateLimitPause(rl, now).Some?
    ensures now + RateLimitPause(rl, now).value * MicrosPerSecond >= rl.resetAt.value + 4 * MicrosPerSecond
  {
  }

  /** 5 points left and a reset 10.5 seconds ahead: a sleep of 15 seconds. */
  lemma PauseScenario(now: Instant)
    ensures RateLimitPause(RateLimit(Some(5), Some(now + 10_500_000)), now) == Some(15)
    ensures RateLimitPause(RateLimit(Some(100), Some(now + 10_500_000)), now).None?
    ensures RateLimitPause(RateLimit(Some(5), Some(now)), now).None?
    ensures RateLimitPause(RateLimit(None, Some(now + 10_500_000)), now).None?
  {
  }

  /** What the rate-limit check raises as the loop writes it: the parsed reset time
      carries a UTC offset, `datetime.utcnow()` carries none, and Python refuses to
      subtract a naive datetime from an aware one (TypeError). */
  datatype PauseError = NaiveAwareSubtraction

  /** The rate-limit check as written: once fewer than 100 points remain and a reset
      time is given, computing the time left raises before `delta > 0` is looked at,
      so the sleep is never reached. Otherwise the loop goes on without sleeping. */
  function RateLimitPauseAsWritten(rl: RateLimit, now: Instant): (r: Result<Option<nat>, PauseError>)
    ensures r.Failure? <==> rl.remaining.Some? && rl.remaining.value < LowRemaining && rl.resetAt.Some?
    ensures r.Success? ==> r.value.None?
  {
    if rl.remaining.Some? && rl.remaining.value < LowRemaining && rl.resetAt.Some? then
      Failure(NaiveAwareSubtraction)
    else
      Success(None)
  }

  /** The check as written agrees with the intended pause wherever it does not raise,
      and it raises in every case where the intended pause would sleep. */
  lemma AsWrittenRaisesInsteadOfSleeping(rl: RateLimit, now: Instant)
    ensures RateLimitPauseAsWritten(rl, now).Success? ==>
      RateLimitPauseAsWritten(rl, now).value == RateLimitPause(rl, now)
    ensures RateLimitPause(rl, now).Some? ==> RateLimitPauseAsWritten(rl, now) == Failure(NaiveAwareSubtraction)
  {
  }

  /** 5 points left and a reset 10 seconds ahead: the intended check sleeps 15
      seconds, the written one raises. */
  lemma PauseScenarioAsWritten(now: Instant)
    ensures RateLimitPause(RateLimit(Some(5), Some(now + 10 * MicrosPerSecond)), now) == Some(15)
    ensures RateLimitPauseAsWritten(RateLimit(Some(5), Some(now + 10 * MicrosPerSecond)), now)
      == Failure(NaiveAwareSubtraction)
  {
  }

  /** Which rate-limit check the loop runs: the one the code evidently intends, or the
      one as written, which raises where the intended one would sleep. */
  datatype PauseCheck = Intended | AsWritten

  /** The outcome of the rate-limit check after a pass that goes on: the sleep, if
      any, or what the check raises. */
  function PauseOf(check: PauseCheck, rl: RateLimit, now: Instant): Result<Option<nat>, PauseError> {
    match check
    case Intended => Success(RateLimitPause(rl, now))
    case AsWritten => RateLimitPauseAsWritten(rl, now)
  }

  /** How many nodes the inner for-loop appends when `collected` nodes were taken
      before: every node up to and including the one that brings the count to the cap. */
  function TakeCount(nodes: seq<RepoNode>, collected: int, max: int): (k: nat)
    ensures k <= |nodes|
    ensures |nodes| > 0 ==> k >= 1
    ensures k < |nodes| ==> collected + k >= max
    ensures k > 1 ==> collected + k - 1 < max
    decreases |nodes|
  {
    if |nodes| == 0 then 0
    else if collected + 1 >= max then 1
    else 1 + TakeCount(nodes[1..], collected + 1, max)
  }

  /** The nodes a pass appended. */
  function TakenNodes(it: Iteration): seq<RepoNode> {
    if it.taken <= |it.page.nodes| then it.page.nodes[..it.taken] else it.page.nodes
  }

  /** All nodes taken by a sequence of passes, in order. */
  function Collected(iters: seq<Iteration>): seq<RepoNode>
    decreases |iters|
  {
    if iters == [] then [] else Collected(iters[..|iters| - 1]) + TakenNodes(iters[|iters| - 1])
  }

  /** All batches flushed inside a sequence of passes, in order. */
  function Flushed(iters: seq<Iteration>): seq<Record>
    decreases |iters|
  {
    if iters == [] then [] else Flushed(iters[..|iters| - 1]) + iters[|iters| - 1].flushed.GetOr([])
  }

  /** Every record a run committed to the store. */
  function Committed(r: Report): seq<Record> {
    Flushed(r.iterations) + r.finalFlush.GetOr([])
  }

  /** The cursor left by the passes so far: None before the first page, then the end
      cursor of the last page. */
  function Cursor(iters: seq<Iteration>): Option<string> {
    if iters == [] then None else iters[|iters| - 1].page.endCursor
  }

  /** Fewer than 200 of the records taken by the passes are still pending. */
  predicate Drained(iters: seq<Iteration>) {
    |Collected(iters)| < |Flushed(iters)| + FlushThreshold
  }

  /** Pass `it`, made after the passes `before`, asked with the query, 100 and the
      cursor `before` left; got its page from the next reply; took nodes as the inner
      loop does, counting on from the nodes taken before; and flushed, if at all, the
      whole pending buffer, at least 200 records, so that every record taken so far is
      then committed. */
  predicate FetchedAfter(query: string, maxRepos: int, script: seq<Reply>, before: seq<Iteration>, it: Iteration) {
    && |before| < |script|
    && script[|before|].result == Success(it.page)
    && it.request == GraphQLClient.Variables(query, PageSize, Cursor(before))
    && it.taken == TakeCount(it.page.nodes, |Collected(before)|, maxRepos)
    && (it.flushed.Some? ==>
      && |it.flushed.value| >= FlushThreshold
      && Flushed(before) + it.flushed.value == RecordsOf(Collected(before) + TakenNodes(it)))
  }

  /** After the passes `done` the loop went on: the last page had a next page, the
      count stayed below the cap, fewer than 200 records were left pending (so a full
      buffer was flushed), and the rate-limit check returned the recorded sleep. */
  predicate WentOn(check: PauseCheck, maxRepos: int, script: seq<Reply>, done: seq<Iteration>) {
    && 0 < |done| <= |script|
    && done[|done| - 1].page.hasNextPage
    && |Collected(done)| < maxRepos
    && Drained(done)
    && PauseOf(check, done[|done| - 1].page.rateLimit, script[|done| - 1].now) == Success(done[|done| - 1].sleptFor)
  }

  /** The passes in order, each made as the loop makes it after those before it, the
      loop having gone on after every pass but the last. */
  predicate Passes(check: PauseCheck, query: string, maxRepos: int, script: seq<Reply>, iters: seq<Iteration>)
    decreases |iters|
  {
    iters == [] ||
    var before := iters[..|iters| - 1];
    && Passes(check, query, maxRepos, script, before)
    && FetchedAfter(query, maxRepos, script, before, iters[|iters| - 1])
    && (before != [] ==> WentOn(check, maxRepos, script, before))
  }

  /** The table `bulk_upsert` leaves after storing, from `store0`, every batch the
      passes flushed, in order, each at the clock of its own pass; None once a batch
      raises. */
  function Replayed(store0: Table, script: seq<Reply>, iters: seq<Iteration>): Option<Table>
    requires |iters| <= |script|
    decreases |iters|
  {
    if iters == [] then Some(store0)
    else
      var n := |iters| - 1;
      var before := Replayed(store0, script, iters[..n]);
      if before.None? || iters[n].flushed.None? then before
      else match BulkUpsert(before.value, iters[n].flushed.value, script[n].now)
        case Success(t) => Some(t)
        case Failure(_) => None
  }

  /** A pass that flushed nothing leaves the replayed table as it was; one that stored
      its batch moves it to the table the batch upsert returned. */
  lemma ReplayStep(store0: Table, script: seq<Reply>, iters: seq<Iteration>, it: Iteration, store: Table, store': Table)
    requires |iters| < |script|
    requires Replayed(store0, script, iters) == Some(store)
    requires it.flushed.None? ==> store' == store
    requires it.flushed.Some? ==> BulkUpsert(store, it.flushed.value, script[|iters|].now) == Success(store')
    ensures Replayed(store0, script, iters + [it]) == Some(store')
  {
    assert (iters + [it])[..|iters|] == iters;
  }

  /** Appending one pass to a log. */
  lemma Extend(check: PauseCheck, query: string, maxRepos: int, script: seq<Reply>, iters: seq<Iteration>, it: Iteration)
    ensures Passes(check, query, maxRepos, script, iters + [it]) <==>
      && Passes(check, query, maxRepos, script, iters)
      && FetchedAfter(query, maxRepos, script, iters, it)
      && (iters != [] ==> WentOn(check, maxRepos, script, iters))
  {
    assert (iters + [it])[..|iters|] == iters;
  }

  /** A pass appended to the log adds its taken nodes and its flushed batch. */
  lemma AppendedNodes(iters: seq<Iteration>, it: Iteration)
    ensures Collected(iters + [it]) == Collected(iters) + TakenNodes(it)
    ensures Flushed(iters + [it]) == Flushed(iters) + it.flushed.GetOr([])
  {
    assert (iters + [it])[..|iters|] == iters;
  }

  /** Every pass of a log asked with the query and a page size of 100, answered with
      its own reply's page, and there are no more passes than replies. */
  lemma {:induction false} PassesFollowScript(check: PauseCheck, query: string, maxRepos: int, script: seq<Reply>,
                                              iters: seq<Iteration>)
    requires Passes(check, query, maxRepos, script, iters)
    ensures |iters| <= |script|
    ensures forall j :: 0 <= j < |iters| ==>
      && iters[j].request.queryString == query && iters[j].request.first == PageSize
      && script[j].result == Success(iters[j].page)
    decreases |iters|
  {
    if iters != [] {
      var before := iters[..|iters| - 1];
      PassesFollowScript(check, query, maxRepos, script, before);
      forall j | 0 <= j < |iters|
        ensures iters[j].request.queryString == query && iters[j].request.first == PageSize
        ensures script[j].result == Success(iters[j].page)
      {
        if j < |before| {
          assert iters[j] == before[j];
        }
      }
    }
  }

  /** As written, no pass the loop went on from slept: the check either raised or
      found nothing to sleep for. */
  lemma {:induction false} AsWrittenPassesNeverSleep(query: string, maxRepos: int, script: seq<Reply>, iters: seq<Iteration>)
    requires Passes(AsWritten, query, maxRepos, script, iters)
    ensures forall j :: 0 <= j < |iters| - 1 ==> iters[j].sleptFor.None?
    decreases |iters|
  {
    if iters != [] {
      var before := iters[..|iters| - 1];
      AsWrittenPassesNeverSleep(query, maxRepos, script, before);
      if before != [] {
        WentOnWithoutSleep(maxRepos, script, before);
      }
      forall j | 0 <= j < |iters| - 1
        ensures iters[j].sleptFor.None?
      {
        assert iters[j] == before[j];
      }
    }
  }

  /** As written, a pass the loop went on from did not sleep. */
  lemma WentOnWithoutSleep(maxRepos: int, script: seq<Reply>, done: seq<Iteration>)
    requires WentOn(AsWritten, maxRepos, script, done)
    ensures done[|done| - 1].sleptFor.None?
  {
  }

  /** The pending records stay the records of the collected nodes not yet flushed. */
  lemma PendingStep(flushed: seq<Record>, results: seq<Record>, collected: seq<RepoNode>, taken: seq<RepoNode>)
    requires flushed + results == RecordsOf(collected)
    ensures flushed + (results + RecordsOf(taken)) == RecordsOf(collected + taken)
  {
    RecordsOfConcat(collected, taken);
    assert flushed + (results + RecordsOf(taken)) == (flushed + results) + RecordsOf(taken);
  }

  function MaxOne(m: int): int {
    if m >= 1 then m else 1
  }

  /** What `search_and_store` guarantees about a run over `script`:
      - the passes follow the loop, in order, one reply each;
      - it took no more nodes than the cap (at least one when the cap is below 1);
      - a count is returned only after the last page or once the cap is met; the count
        is the number of nodes taken, no sleep follows the last page, and every record
        taken was committed, in order;
      - the final flush holds between 1 and 199 records and happens only on success;
      - on a failure nothing was committed that was not taken, in order; running out of
        replies and a raising call end a run that went on after its last pass; a raising
        call ends the run with its own error; a batch that fails to store is the rest of
        the records taken, and is the final flush unless it holds 200 or more; a raising
        rate-limit check ends a pass the loop would have gone on from;
      - the table is what storing the flushed batches one after the other, and then the
        final flush, makes of `store0`: it keeps its constraints, gains exactly the ids
        of the committed records, and every other row stays as it was. */
  predicate Sound(check: PauseCheck, query: string, maxRepos: int, script: seq<Reply>, store0: Table, r: Report) {
    && Logged(check, query, maxRepos, script, r.iterations)
    && Returned(maxRepos, r)
    && Failed(check, maxRepos, script, r)
    && Stored(store0, script, r)
  }

  /** The passes follow the loop, one reply each, and took no more nodes than the cap. */
  predicate Logged(check: PauseCheck, query: string, maxRepos: int, script: seq<Reply>, iters: seq<Iteration>) {
    && |iters| <= |script|
    && Passes(check, query, maxRepos, script, iters)
    && |Collected(iters)| <= MaxOne(maxRepos)
  }

  /** A count is returned only where the loop stops, and is the number of nodes taken,
      all of them committed; a final flush holds 1 to 199 records and belongs to a
      returning run; a failing run committed no record it did not take. */
  predicate Returned(maxRepos: int, r: Report) {
    && (r.outcome.Success? ==>
      && r.iterations != []
      && r.outcome.value == |Collected(r.iterations)|
      && (!r.iterations[|r.iterations| - 1].page.hasNextPage || r.outcome.value >= maxRepos)
      && r.iterations[|r.iterations| - 1].sleptFor.None?
      && Committed(r) == RecordsOf(Collected(r.iterations)))
    && (r.finalFlush.Some? ==> r.outcome.Success? && 0 < |r.finalFlush.value| < FlushThreshold)
    && (r.outcome.Failure? ==> r.finalFlush.None? && Flushed(r.iterations) <= RecordsOf(Collected(r.iterations)))
  }

  /** Where each kind of failure comes from. */
  predicate Failed(check: PauseCheck, maxRepos: int, script: seq<Reply>, r: Report) {
    && |r.iterations| <= |script|
    && (r.outcome == Failure(NoReply) ==>
      |r.iterations| == |script| && (r.iterations != [] ==> WentOn(check, maxRepos, script, r.iterations)))
    && (r.outcome.Failure? && r.outcome.error.ApiFailed? ==>
      && |r.iterations| < |script|
      && script[|r.iterations|].result == Failure(r.outcome.error.error)
      && (r.iterations != [] ==> WentOn(check, maxRepos, script, r.iterations)))
    && (r.outcome.Failure? && r.outcome.error.StoreFailed? ==>
      && r.iterations != []
      && Flushed(r.iterations) + r.outcome.error.batch == RecordsOf(Collected(r.iterations))
      && r.iterations[|r.iterations| - 1].sleptFor.None?
      && (|r.outcome.error.batch| < FlushThreshold ==>
        !r.iterations[|r.iterations| - 1].page.hasNextPage || |Collected(r.iterations)| >= maxRepos)
      && BulkUpsert(r.store, r.outcome.error.batch, script[|r.iterations| - 1].now) == Failure(r.outcome.error.dbError))
    && (r.outcome.Failure? && r.outcome.error.PauseRaised? ==>
      && r.iterations != []
      && r.iterations[|r.iterations| - 1].page.hasNextPage
      && |Collected(r.iterations)| < maxRepos
      && Drained(r.iterations)
      && r.iterations[|r.iterations| - 1].sleptFor.None?
      && PauseOf(check, r.iterations[|r.iterations| - 1].page.rateLimit, script[|r.iterations| - 1].now)
        == Failure(r.outcome.error.raised))
  }

  /** The table is what storing the flushed batches one after the other, and then the
      final flush, makes of `store0`; it keeps its constraints, gains exactly the ids of
      the committed records, and every other row stays as it was. */
  predicate Stored(store0: Table, script: seq<Reply>, r: Report) {
    && |r.iterations| <= |script|
    && (r.finalFlush.None? ==> Replayed(store0, script, r.iterations) == Some(r.store))
    && (r.finalFlush.Some? ==>
      && r.iterations != []
      && Replayed(store0, script, r.iterations).Some?
      && BulkUpsert(Replayed(store0, script, r.iterations).value, r.finalFlush.value, script[|r.iterations| - 1].now)
        == Success(r.store))
    && StoreHolds(store0, Committed(r), r.store)
  }

  /** The loop's local state between passes: the passes so far, the count `collected`,
      the pending `results`, and the table. */
  datatype Progress = Progress(iters: seq<Iteration>, collected: nat, results: seq<Record>, store: Table)

  /** What holds between two passes of the loop. */
  predicate Invariant(check: PauseCheck, query: string, maxRepos: int, script: seq<Reply>, store0: Table, p: Progress) {
    && |p.iters| <= |script|
    && Passes(check, query, maxRepos, script, p.iters)
    && (p.iters != [] ==> WentOn(check, maxRepos, script, p.iters))
    && p.collected == |Collected(p.iters)|
    && p.collected <= MaxOne(maxRepos)
    && Flushed(p.iters) + p.results == RecordsOf(Collected(p.iters))
    && |p.results| < FlushThreshold
    && Replayed(store0, script, p.iters) == Some(p.store)
    && StoreHolds(store0, Flushed(p.iters), p.store)
  }

  /** What holds once a pass has been appended, before the loop decides to go on. */
  predicate Appended(check: PauseCheck, query: string, maxRepos: int, script: seq<Reply>, store0: Table,
                     iters: seq<Iteration>, collected: nat, results: seq<Record>, store: Table) {
    && 0 < |iters| <= |script|
    && Passes(check, query, maxRepos, script, iters)
    && collected == |Collected(iters)|
    && collected <= MaxOne(maxRepos)
    && Flushed(iters) + results == RecordsOf(Collected(iters))
    && Replayed(store0, script, iters) == Some(store)
    && StoreHolds(store0, Flushed(iters), store)
  }

  lemma ApiFailureEnds(check: PauseCheck, query: string, maxRepos: int, script: seq<Reply>, store0: Table, p: Progress)
    requires Invariant(check, query, maxRepos, script, store0, p)
    requires |p.iters| < |script| && script[|p.iters|].result.Failure?
    ensures Sound(check, query, maxRepos, script, store0,
      Report(Failure(ApiFailed(script[|p.iters|].result.error)), p.iters, None, p.store))
  {
    assert Flushed(p.iters) <= Flushed(p.iters) + p.results;
    assert Flushed(p.iters) + [] == Flushed(p.iters);
  }

  lemma NoReplyEnds(check: PauseCheck, query: string, maxRepos: int, script: seq<Reply>, store0: Table, p: Progress)
    requires Invariant(check, query, maxRepos, script, store0, p)
    requires |p.iters| == |script|
    ensures Sound(check, query, maxRepos, script, store0, Report(Failure(NoReply), p.iters, None, p.store))
  {
    assert Flushed(p.iters) <= Flushed(p.iters) + p.results;
    assert Flushed(p.iters) + [] == Flushed(p.iters);
  }

  /** The count after a pass stays within the cap (or at 1 when the cap is below 1). */
  lemma TakeWithinCap(nodes: seq<RepoNode>, collected: nat, maxRepos: int, first: bool)
    requires first ==> collected == 0
    requires !first ==> collected < maxRepos
    requires collected <= MaxOne(maxRepos)
    ensures collected + TakeCount(nodes, collected, maxRepos) <= MaxOne(maxRepos)
  {
  }

  /** The log, the count and the pending records after a pass that took `it.taken`
      nodes of its page and flushed `it.flushed` (if any), leaving `results` pending. */
  lemma AppendingLog(check: PauseCheck, query: string, maxRepos: int, script: seq<Reply>, iters: seq<Iteration>,
                     collected: nat, pending: seq<Record>, it: Iteration, results: seq<Record>)
    requires Passes(check, query, maxRepos, script, iters)
    requires iters != [] ==> WentOn(check, maxRepos, script, iters)
    requires collected == |Collected(iters)| <= MaxOne(maxRepos)
    requires Flushed(iters) + pending == RecordsOf(Collected(iters))
    requires FetchedAfter(query, maxRepos, script, iters, it)
    requires it.flushed.GetOr([]) + results == pending + RecordsOf(it.page.nodes[..it.taken])
    ensures Passes(check, query, maxRepos, script, iters + [it])
    ensures collected + it.taken == |Collected(iters + [it])| <= MaxOne(maxRepos)
    ensures Flushed(iters + [it]) + results == RecordsOf(Collected(iters + [it]))
    ensures Flushed(iters + [it]) == Flushed(iters) + it.flushed.GetOr([])
  {
    Extend(check, query, maxRepos, script, iters, it);
    AppendingCount(maxRepos, iters, collected, it, iters == []);
    AppendingRecords(iters, pending, it, results);
  }

  lemma AppendingCount(maxRepos: int, iters: seq<Iteration>, collected: nat, it: Iteration, first: bool)
    requires first <==> iters == []
    requires collected == |Collected(iters)| <= MaxOne(maxRepos)
    requires !first ==> collected < maxRepos
    requires it.taken == TakeCount(it.page.nodes, collected, maxRepos)
    ensures collected + it.taken == |Collected(iters + [it])| <= MaxOne(maxRepos)
  {
    AppendedNodes(iters, it);
    TakeWithinCap(it.page.nodes, collected, maxRepos, first);
  }

  lemma AppendingRecords(iters: seq<Iteration>, pending: seq<Record>, it: Iteration, results: seq<Record>)
    requires it.taken <= |it.page.nodes|
    requires Flushed(iters) + pending == RecordsOf(Collected(iters))
    requires it.flushed.GetOr([]) + results == pending + RecordsOf(it.page.nodes[..it.taken])
    ensures Flushed(iters + [it]) + results == RecordsOf(Collected(iters + [it]))
    ensures Flushed(iters + [it]) == Flushed(iters) + it.flushed.GetOr([])
  {
    var taken := it.page.nodes[..it.taken];
    AppendedNodes(iters, it);
    assert TakenNodes(it) == taken;
    calc {
      Flushed(iters + [it]) + results;
      Flushed(iters) + it.flushed.GetOr([]) + results;
      Flushed(iters) + (it.flushed.GetOr([]) + results);
      Flushed(iters) + (pending + RecordsOf(taken));
      { PendingStep(Flushed(iters), pending, Collected(iters), taken); }
      RecordsOf(Collected(iters) + taken);
      RecordsOf(Collected(iters + [it]));
    }
  }

  /** A batch holding the whole pending buffer with the new records leaves every record
      taken so far committed. */
  lemma FlushedEverything(flushedBefore: seq<Record>, pending: seq<Record>, collected: seq<RepoNode>,
                          taken: seq<RepoNode>, batch: seq<Record>)
    requires flushedBefore + pending == RecordsOf(collected)
    requires batch == pending + RecordsOf(taken)
    ensures flushedBefore + batch == RecordsOf(collected + taken)
  {
    PendingStep(flushedBefore, pending, collected, taken);
  }

  /** A pass that took `it.taken` nodes of its page and flushed `it.flushed` (if any),
      leaving `results` pending and the table `store`. */
  lemma Appending(check: PauseCheck, query: string, maxRepos: int, script: seq<Reply>, store0: Table, p: Progress,
                  it: Iteration, results: seq<Record>, store: Table)
    requires Invariant(check, query, maxRepos, script, store0, p)
    requires FetchedAfter(query, maxRepos, script, p.iters, it)
    requires it.flushed.GetOr([]) + results == p.results + RecordsOf(it.page.nodes[..it.taken])
    requires it.flushed.None? ==> store == p.store
    requires it.flushed.Some? ==> BulkUpsert(p.store, it.flushed.value, script[|p.iters|].now) == Success(store)
    requires StoreHolds(store0, Flushed(p.iters) + it.flushed.GetOr([]), store)
    ensures Appended(check, query, maxRepos, script, store0, p.iters + [it], p.collected + it.taken, results, store)
  {
    AppendingLog(check, query, maxRepos, script, p.iters, p.collected, p.results, it, results);
    ReplayStep(store0, script, p.iters, it, p.store, store);
  }

  /** The loop goes on after a pass with a next page, below the cap. */
  lemma GoingOn(check: PauseCheck, query: string, maxRepos: int, script: seq<Reply>, store0: Table,
                iters: seq<Iteration>, collected: nat, results: seq<Record>, store: Table)
    requires Appended(check, query, maxRepos, script, store0, iters, collected, results, store)
    requires iters[|iters| - 1].page.hasNextPage && collected < maxRepos
    requires PauseOf(check, iters[|iters| - 1].page.rateLimit, script[|iters| - 1].now)
      == Success(iters[|iters| - 1].sleptFor)
    requires |results| < FlushThreshold
    ensures Invariant(check, query, maxRepos, script, store0, Progress(iters, collected, results, store))
  {
    assert WentOn(check, maxRepos, script, iters);
  }

  /** A rate-limit check that raises after a pass the loop would go on from ends the
      run with its error; the pending records are not flushed. */
  lemma PauseRaisedEnds(check: PauseCheck, query: string, maxRepos: int, script: seq<Reply>, store0: Table,
                        iters: seq<Iteration>, collected: nat, results: seq<Record>, store: Table, e: PauseError)
    requires Appended(check, query, maxRepos, script, store0, iters, collected, results, store)
    requires iters[|iters| - 1].page.hasNextPage && collected < maxRepos
    requires iters[|iters| - 1].sleptFor.None?
    requires PauseOf(check, iters[|iters| - 1].page.rateLimit, script[|iters| - 1].now) == Failure(e)
    requires |results| < FlushThreshold
    ensures Sound(check, query, maxRepos, script, store0, Report(Failure(PauseRaised(e)), iters, None, store))
  {
    EndsWithError(check, query, maxRepos, script, store0, iters, collected, results, store,
                  Report(Failure(PauseRaised(e)), iters, None, store));
  }

  lemma StoreFailureEnds(check: PauseCheck, query: string, maxRepos: int, script: seq<Reply>, store0: Table,
                         iters: seq<Iteration>, collected: nat, results: seq<Record>, store: Table, e: DbError)
    requires Appended(check, query, maxRepos, script, store0, iters, collected, results, store)
    requires iters[|iters| - 1].sleptFor.None?
    requires |results| < FlushThreshold ==> !iters[|iters| - 1].page.hasNextPage || collected >= maxRepos
    requires BulkUpsert(store, results, script[|iters| - 1].now) == Failure(e)
    ensures Sound(check, query, maxRepos, script, store0, Report(Failure(StoreFailed(e, results)), iters, None, store))
  {
    EndsWithError(check, query, maxRepos, script, store0, iters, collected, results, store,
                  Report(Failure(StoreFailed(e, results)), iters, None, store));
  }

  /** A run that ends with an error right after the passes `iters` commits nothing
      more: the log, the cap and the table are as the passes left them. */
  lemma EndsWithError(check: PauseCheck, query: string, maxRepos: int, script: seq<Reply>, store0: Table,
                      iters: seq<Iteration>, collected: nat, results: seq<Record>, store: Table, r: Report)
    requires Appended(check, query, maxRepos, script, store0, iters, collected, results, store)
    requires r.iterations == iters && r.finalFlush.None? && r.store == store && r.outcome.Failure?
    ensures Logged(check, query, maxRepos, script, r.iterations)
    ensures Returned(maxRepos, r) && Stored(store0, script, r)
  {
    assert Flushed(iters) <= Flushed(iters) + results;
    assert Committed(r) == Flushed(iters) + [] == Flushed(iters);
  }

  lemma StopWithoutFlush(check: PauseCheck, query: string, maxRepos: int, script: seq<Reply>, store0: Table,
                         iters: seq<Iteration>, collected: nat, store: Table)
    requires Appended(check, query, maxRepos, script, store0, iters, collected, [], store)
    requires !iters[|iters| - 1].page.hasNextPage || collected >= maxRepos
    requires iters[|iters| - 1].sleptFor.None?
    ensures Sound(check, query, maxRepos, script, store0, Report(Success(collected), iters, None, store))
  {
    assert Flushed(iters) + [] == Flushed(iters);
  }

  lemma StopWithFlush(check: PauseCheck, query: string, maxRepos: int, script: seq<Reply>, store0: Table,
                      iters: seq<Iteration>, collected: nat, results: seq<Record>, store: Table)
    requires Appended(check, query, maxRepos, script, store0, iters, collected, results, store)
    requires !iters[|iters| - 1].page.hasNextPage || collected >= maxRepos
    requires iters[|iters| - 1].sleptFor.None?
    requires 0 < |results| < FlushThreshold
    requires BulkUpsert(store, results, script[|iters| - 1].now).Success?
    ensures Sound(check, query, maxRepos, script, store0,
      Report(Success(collected), iters, Some(results), BulkUpsert(store, results, script[|iters| - 1].now).value))
  {
    FlushKeepsStore(store0, Flushed(iters), store, results, script[|iters| - 1].now);
  }

  /** The in-loop flush of a pass: the batch stored (once 200 or more records are
      pending), the records left pending and the table; or the error of a batch that
      failed, the table untouched. */
  datatype Flush = Flush(flushed: Option<seq<Record>>, results: seq<Record>, store: Table, failure: Option<DbError>)

  function FlushIfFull(store: Table, batch: seq<Record>, now: Instant): (f: Flush)
    ensures f.failure.None? ==>
      && f.flushed.GetOr([]) + f.results == batch
      && (f.flushed.Some? <==> |batch| >= FlushThreshold)
      && |f.results| < FlushThreshold
      && (f.flushed.Some? ==> f.flushed.value == batch && BulkUpsert(store, batch, now) == Success(f.store))
      && (f.flushed.None? ==> f.store == store)
    ensures f.failure.Some? ==>
      && |batch| >= FlushThreshold
      && f.results == batch && f.flushed.None? && f.store == store
      && BulkUpsert(store, batch, now) == Failure(f.failure.value)
  {
    if |batch| < FlushThreshold then Flush(None, batch, store, None)
    else match BulkUpsert(store, batch, now)
      case Failure(e) => Flush(None, batch, store, Some(e))
      case Success(t) => Flush(Some(batch), [], t, None)
  }

  /** A flush that does not fail keeps the table's relation to the committed records. */
  lemma FlushIfFullKeepsStore(store0: Table, committed: seq<Record>, store: Table, batch: seq<Record>, now: Instant)
    requires StoreHolds(store0, committed, store)
    ensures FlushIfFull(store, batch, now).failure.None? ==>
      StoreHolds(store0, committed + FlushIfFull(store, batch, now).flushed.GetOr([]), FlushIfFull(store, batch, now).store)
  {
    var f := FlushIfFull(store, batch, now);
    if f.flushed.Some? {
      FlushKeepsStore(store0, committed, store, batch, now);
    } else {
      assert committed + [] == committed;
    }
  }

  /** The inner for-loop and the in-loop flush of one page: the nodes taken, then the
      flush of the pending records with the new ones. */
  method TakeAndFlush(maxRepos: int, store0: Table, flushedBefore: seq<Record>, collected: nat,
                      pending: seq<Record>, store: Table, page: Page, now: Instant)
    returns (k: nat, flushed: Option<seq<Record>>, results: seq<Record>, store': Table, failure: Option<DbError>)
    requires StoreHolds(store0, flushedBefore, store)
    ensures k == TakeCount(page.nodes, collected, maxRepos)
    ensures failure.None? ==>
      && flushed.GetOr([]) + results == pending + RecordsOf(page.nodes[..k])
      && (flushed.Some? ==>
        && |flushed.value| >= FlushThreshold
        && flushed.value == pending + RecordsOf(page.nodes[..k])
        && BulkUpsert(store, flushed.value, now) == Success(store'))
      && (flushed.None? ==> store' == store)
      && |results| < FlushThreshold
      && StoreHolds(store0, flushedBefore + flushed.GetOr([]), store')
    ensures failure.Some? ==>
      && results == pending + RecordsOf(page.nodes[..k])
      && |results| >= FlushThreshold
      && flushed.None? && store' == store
      && BulkUpsert(store, results, now) == Failure(failure.value)
  {
    k := TakeCount(page.nodes, collected, maxRepos);
    var batch := pending + RecordsOf(page.nodes[..k]);
    var f := FlushIfFull(store, batch, now);
    FlushIfFullKeepsStore(store0, flushedBefore, store, batch, now);
    return k, f.flushed, f.results, f.store, f.failure;
  }

  /** The end of a run once the loop has stopped: flush what is pending, if anything. */
  method Finish(check: PauseCheck, query: string, maxRepos: int, script: seq<Reply>, store0: Table,
                iters: seq<Iteration>, collected: nat, results: seq<Record>, store: Table)
    returns (r: Report)
    requires Appended(check, query, maxRepos, script, store0, iters, collected, results, store)
    requires !iters[|iters| - 1].page.hasNextPage || collected >= maxRepos
    requires iters[|iters| - 1].sleptFor.None?
    requires |results| < FlushThreshold
    ensures Sound(check, query, maxRepos, script, store0, r)
  {
    if |results| == 0 {
      StopWithoutFlush(check, query, maxRepos, script, store0, iters, collected, store);
      return Report(Success(collected), iters, None, store);
    }
    var b := BulkUpsert(store, results, script[|iters| - 1].now);
    if b.Failure? {
      StoreFailureEnds(check, query, maxRepos, script, store0, iters, collected, results, store, b.error);
      return Report(Failure(StoreFailed(b.error, results)), iters, None, store);
    }
    StopWithFlush(check, query, maxRepos, script, store0, iters, collected, results, store);
    return Report(Success(collected), iters, Some(results), b.value);
  }

  /** A pass whose in-loop flush failed: the run ends with the batch it could not store. */
  method StoreFailure(check: PauseCheck, query: string, maxRepos: int, script: seq<Reply>, store0: Table, p: Progress,
                      it: Iteration, results: seq<Record>, store: Table, e: DbError)
    returns (r: Report)
    requires Invariant(check, query, maxRepos, script, store0, p)
    requires FetchedAfter(query, maxRepos, script, p.iters, it) && it.flushed.None? && it.sleptFor.None?
    requires results == p.results + RecordsOf(it.page.nodes[..it.taken])
    requires |results| >= FlushThreshold
    requires store == p.store
    requires BulkUpsert(store, results, script[|p.iters|].now) == Failure(e)
    ensures Sound(check, query, maxRepos, script, store0, r)
  {
    assert [] + results == results;
    assert Flushed(p.iters) + [] == Flushed(p.iters);
    Appending(check, query, maxRepos, script, store0, p, it, results, store);
    var iters := p.iters + [it];
    assert |iters| - 1 == |p.iters|;
    StoreFailureEnds(check, query, maxRepos, script, store0, iters, p.collected + it.taken, results, store, e);
    return Report(Failure(StoreFailed(e, results)), iters, None, store);
  }

  /** A page taken and, if 200 or more records were pending, flushed, appended to the log. */
  lemma PassAppended(check: PauseCheck, query: string, maxRepos: int, script: seq<Reply>, store0: Table, p: Progress,
                     it: Iteration, results: seq<Record>, store: Table)
    requires Invariant(check, query, maxRepos, script, store0, p)
    requires |p.iters| < |script| && script[|p.iters|].result == Success(it.page)
    requires it.request == GraphQLClient.Variables(query, PageSize, Cursor(p.iters))
    requires it.taken == TakeCount(it.page.nodes, p.collected, maxRepos)
    requires it.flushed.GetOr([]) + results == p.results + RecordsOf(it.page.nodes[..it.taken])
    requires it.flushed.Some? ==>
      && |it.flushed.value| >= FlushThreshold
      && it.flushed.value == p.results + RecordsOf(it.page.nodes[..it.taken])
      && BulkUpsert(p.store, it.flushed.value, script[|p.iters|].now) == Success(store)
    requires it.flushed.None? ==> store == p.store
    requires StoreHolds(store0, Flushed(p.iters) + it.flushed.GetOr([]), store)
    ensures Appended(check, query, maxRepos, script, store0, p.iters + [it], p.collected + it.taken, results, store)
  {
    assert TakenNodes(it) == it.page.nodes[..it.taken];
    if it.flushed.Some? {
      FlushedEverything(Flushed(p.iters), p.results, Collected(p.iters), it.page.nodes[..it.taken], it.flushed.value);
    }
    Appending(check, query, maxRepos, script, store0, p, it, results, store);
  }

  /** After a page was taken and any full buffer stored: log the pass, then stop and
      flush the rest, end where the rate-limit check raised, or go on to the next page. */
  method Decide(check: PauseCheck, query: string, maxRepos: int, script: seq<Reply>, store0: Table, p: Progress,
                it: Iteration, results: seq<Record>, store: Table, pause: Result<Option<nat>, PauseError>)
    returns (next: Progress, done: Option<Report>)
    requires Invariant(check, query, maxRepos, script, store0, p)
    requires |p.iters| < |script| && script[|p.iters|].result == Success(it.page)
    requires it.request == GraphQLClient.Variables(query, PageSize, Cursor(p.iters))
    requires it.taken == TakeCount(it.page.nodes, p.collected, maxRepos)
    requires it.flushed.GetOr([]) + results == p.results + RecordsOf(it.page.nodes[..it.taken])
    requires it.flushed.Some? ==>
      && |it.flushed.value| >= FlushThreshold
      && it.flushed.value == p.results + RecordsOf(it.page.nodes[..it.taken])
      && BulkUpsert(p.store, it.flushed.value, script[|p.iters|].now) == Success(store)
    requires it.flushed.None? ==> store == p.store
    requires |results| < FlushThreshold
    requires StoreHolds(store0, Flushed(p.iters) + it.flushed.GetOr([]), store)
    requires pause == PauseOf(check, it.page.rateLimit, script[|p.iters|].now)
    requires it.sleptFor ==
      if p.collected + it.taken >= maxRepos || !it.page.hasNextPage || pause.Failure? then None else pause.value
    ensures done.Some? ==> Sound(check, query, maxRepos, script, store0, done.value)
    ensures done.None? ==> Invariant(check, query, maxRepos, script, store0, next) && next.iters == p.iters + [it]
  {
    PassAppended(check, query, maxRepos, script, store0, p, it, results, store);
    var iters := p.iters + [it];
    var collected := p.collected + it.taken;
    assert iters[|iters| - 1] == it && |iters| - 1 == |p.iters|;
    if collected >= maxRepos || !it.page.hasNextPage {
      var r := Finish(check, query, maxRepos, script, store0, iters, collected, results, store);
      return p, Some(r);
    }
    if pause.Failure? {
      PauseRaisedEnds(check, query, maxRepos, script, store0, iters, collected, results, store, pause.error);
      return p, Some(Report(Failure(PauseRaised(pause.error)), iters, None, store));
    }
    GoingOn(check, query, maxRepos, script, store0, iters, collected, results, store);
    return Progress(iters, collected, results, store), None;
  }

  /** The rest of a pass whose in-loop flush, if any, stored its batch. */
  method PassStored(check: PauseCheck, query: string, maxRepos: int, script: seq<Reply>, store0: Table, p: Progress,
                    request: GraphQLClient.Variables, page: Page, k: nat, flushed: Option<seq<Record>>,
                    results: seq<Record>, store: Table)
    returns (next: Progress, done: Option<Report>)
    requires Invariant(check, query, maxRepos, script, store0, p)
    requires |p.iters| < |script| && script[|p.iters|].result == Success(page)
    requires request == GraphQLClient.Variables(query, PageSize, Cursor(p.iters))
    requires k == TakeCount(page.nodes, p.collected, maxRepos)
    requires flushed.GetOr([]) + results == p.results + RecordsOf(page.nodes[..k])
    requires flushed.Some? ==>
      && |flushed.value| >= FlushThreshold
      && flushed.value == p.results + RecordsOf(page.nodes[..k])
      && BulkUpsert(p.store, flushed.value, script[|p.iters|].now) == Success(store)
    requires flushed.None? ==> store == p.store
    requires |results| < FlushThreshold
    requires StoreHolds(store0, Flushed(p.iters) + flushed.GetOr([]), store)
    ensures done.Some? ==> Sound(check, query, maxRepos, script, store0, done.value)
    ensures done.None? ==> Invariant(check, query, maxRepos, script, store0, next) && |next.iters| == |p.iters| + 1
  {
    var pause := PauseOf(check, page.rateLimit, script[|p.iters|].now);
    var stop := p.collected + k >= maxRepos || !page.hasNextPage;
    var it := Iteration(request, page, k, flushed, if stop || pause.Failure? then None else pause.value);
    next, done := Decide(check, query, maxRepos, script, store0, p, it, results, store, pause);
  }

  /** One pass of the loop over a page that arrived: take, flush, then stop, go on, or
      end where the rate-limit check raises. Returns the run's report when the pass
      ends it, otherwise the state for the next pass. */
  method Pass(check: PauseCheck, query: string, maxRepos: int, script: seq<Reply>, store0: Table, p: Progress)
    returns (next: Progress, done: Option<Report>)
    requires Invariant(check, query, maxRepos, script, store0, p)
    requires |p.iters| < |script| && script[|p.iters|].result.Success?
    ensures done.Some? ==> Sound(check, query, maxRepos, script, store0, done.value)
    ensures done.None? ==> Invariant(check, query, maxRepos, script, store0, next) && |next.iters| == |p.iters| + 1
  {
    var request := GraphQLClient.SearchReposPage(query, PageSize, Cursor(p.iters));
    var reply := script[|p.iters|];
    var page := reply.result.value;
    var k, flushed, results, store, failure :=
      TakeAndFlush(maxRepos, store0, Flushed(p.iters), p.collected, p.results, p.store, page, reply.now);
    if failure.Some? {
      var r := StoreFailure(check, query, maxRepos, script, store0, p, Iteration(request, page, k, None, None),
                            results, store, failure.value);
      return p, Some(r);
    }
    next, done := PassStored(check, query, maxRepos, script, store0, p, request, page, k, flushed, results, store);
  }

  /** `search_and_store`, over the replies its calls meet in order, with the given
      rate-limit check. */
  method SearchAndStore(check: PauseCheck, query: string, maxRepos: int, script: seq<Reply>, store0: Table)
    returns (r: Report)
    requires WellFormed(store0)
    ensures Sound(check, query, maxRepos, script, store0, r)
  {
    var p := Progress([], 0, [], store0);
    while true
      invariant Invariant(check, query, maxRepos, script, store0, p)
      decreases |script| - |p.iters|
    {
      if |p.iters| == |script| {
        NoReplyEnds(check, query, maxRepos, script, store0, p);
        return Report(Failure(NoReply), p.iters, None, p.store);
      }
      if script[|p.iters|].result.Failure? {
        ApiFailureEnds(check, query, maxRepos, script, store0, p);
        return Report(Failure(ApiFailed(script[|p.iters|].result.error)), p.iters, None, p.store);
      }
      var done;
      p, done := Pass(check, query, maxRepos, script, store0, p);
      if done.Some? {
        return done.value;
      }
    }
  }

  /** The log and the final flush determine the table a run leaves. */
  lemma LogDeterminesStore(check: PauseCheck, query: string, maxRepos: int, script: seq<Reply>, store0: Table,
                           r1: Report, r2: Report)
    requires Sound(check, query, maxRepos, script, store0, r1)
    requires Sound(check, query, maxRepos, script, store0, r2)
    requires r1.iterations == r2.iterations && r1.finalFlush == r2.finalFlush
    ensures r1.store == r2.store
  {
    assert Stored(store0, script, r1) && Stored(store0, script, r2);
  }

  /** A pass that flushed in the loop left nothing pending, so a run whose last pass
      flushed has no final flush. */
  lemma InLoopFlushTakesAll(check: PauseCheck, query: string, maxRepos: int, script: seq<Reply>, store0: Table,
                            r: Report)
    requires Sound(check, query, maxRepos, script, store0, r)
    requires r.iterations != [] && r.iterations[|r.iterations| - 1].flushed.Some?
    ensures Flushed(r.iterations) == RecordsOf(Collected(r.iterations))
    ensures r.finalFlush.None?
  {
    var iters := r.iterations;
    var before := iters[..|iters| - 1];
    var it := iters[|iters| - 1];
    assert iters == before + [it];
    assert FetchedAfter(query, maxRepos, script, before, it);
    AppendedNodes(before, it);
    assert Flushed(iters) == RecordsOf(Collected(iters));
    assert |Committed(r)| == |Flushed(iters)| + |r.finalFlush.GetOr([])|;
  }

  /** As written, no pass of a run sleeps: every sleep the intended check would take
      becomes a TypeError instead. */
  lemma AsWrittenNeverSleeps(query: string, maxRepos: int, script: seq<Reply>, store0: Table, r: Report)
    requires Sound(AsWritten, query, maxRepos, script, store0, r)
    ensures forall j :: 0 <= j < |r.iterations| ==> r.iterations[j].sleptFor.None?
  {
    AsWrittenPassesNeverSleep(query, maxRepos, script, r.iterations);
    if r.iterations != [] {
      LastPassNeverSleeps(maxRepos, script, r);
    }
  }

  /** As written, the last pass of a run does not sleep either: a run that returns
      sleeps after no last page, one whose store or check raised records no sleep, and
      one that went on passed the check without raising. */
  lemma LastPassNeverSleeps(maxRepos: int, script: seq<Reply>, r: Report)
    requires Returned(maxRepos, r) && Failed(AsWritten, maxRepos, script, r)
    requires r.iterations != []
    ensures r.iterations[|r.iterations| - 1].sleptFor.None?
  {
  }

  /** As written, a pass the loop would go on from, whose check raises, ends the run
      with that TypeError, unless its in-loop flush of 200 or more records raised first. */
  lemma RaisesWhereCheckFails(query: string, maxRepos: int, script: seq<Reply>, store0: Table, r: Report)
    requires Sound(AsWritten, query, maxRepos, script, store0, r)
    requires r.iterations != []
    requires r.iterations[|r.iterations| - 1].page.hasNextPage && |Collected(r.iterations)| < maxRepos
    requires RateLimitPauseAsWritten(r.iterations[|r.iterations| - 1].page.rateLimit, script[|r.iterations| - 1].now).Failure?
    ensures r.outcome.Failure? && (r.outcome.error.PauseRaised? || r.outcome.error.StoreFailed?)
    ensures r.outcome.error.StoreFailed? ==> |r.outcome.error.batch| >= FlushThreshold
  {
    CheckFailureEnds(maxRepos, script, r);
  }

  lemma CheckFailureEnds(maxRepos: int, script: seq<Reply>, r: Report)
    requires Returned(maxRepos, r) && Failed(AsWritten, maxRepos, script, r)
    requires r.iterations != []
    requires r.iterations[|r.iterations| - 1].page.hasNextPage && |Collected(r.iterations)| < maxRepos
    requires RateLimitPauseAsWritten(r.iterations[|r.iterations| - 1].page.rateLimit, script[|r.iterations| - 1].now).Failure?
    ensures r.outcome.Failure? && (r.outcome.error.PauseRaised? || r.outcome.error.StoreFailed?)
    ensures r.outcome.error.StoreFailed? ==> |r.outcome.error.batch| >= FlushThreshold
  {
  }

  /** One page holding the node `n`, with a next page, 5 points left and the reset 10
      seconds after the clock, and no reply after it. */
  function LowBudgetScript(n: RepoNode, now: Instant): (script: seq<Reply>)
    ensures |script| == 1 && script[0].now == now
    ensures script[0].result.Success? && script[0].result.value.nodes == [n] && script[0].result.value.hasNextPage
  {
    [Reply(Success(Page([n], true, Some("c"), RateLimit(Some(5), Some(now + 10 * MicrosPerSecond)))), now)]
  }

  /** A run whose first reply brings a page makes at least one pass. */
  lemma FirstPageMakesPass(check: PauseCheck, maxRepos: int, script: seq<Reply>, r: Report)
    requires Returned(maxRepos, r) && Failed(check, maxRepos, script, r)
    requires |script| > 0 && script[0].result.Success?
    ensures r.iterations != []
  {
  }

  /** The single pass of a run over `LowBudgetScript` under a cap of 10: it took the
      node and flushed nothing. */
  lemma LowBudgetPass(check: PauseCheck, query: string, n: RepoNode, now: Instant, store0: Table, r: Report)
    requires Sound(check, query, 10, LowBudgetScript(n, now), store0, r)
    ensures |r.iterations| == 1 && r.iterations[0].page == LowBudgetScript(n, now)[0].result.value
    ensures Collected(r.iterations) == [n] && Flushed(r.iterations) == []
  {
    var script := LowBudgetScript(n, now);
    FirstPageMakesPass(check, 10, script, r);
    var it := r.iterations[0];
    assert r.iterations == [it];
    assert r.iterations[..0] == [];
    assert FetchedAfter(query, 10, script, [], it);
    assert it.taken == 1;
    assert TakenNodes(it) == [n];
    AppendedNodes([], it);
    assert [] + [it] == r.iterations;
  }

  /** As written, the run over `LowBudgetScript` raises TypeError after its first page:
      nothing is slept, the node's record is never stored, and the table is as before. */
  lemma AsWrittenScenario(query: string, n: RepoNode, now: Instant, store0: Table, r: Report)
    requires Sound(AsWritten, query, 10, LowBudgetScript(n, now), store0, r)
    ensures r.outcome == Failure(PauseRaised(NaiveAwareSubtraction))
    ensures r.iterations[0].sleptFor.None?
    ensures Committed(r) == [] && r.store == store0
  {
    LowBudgetPass(AsWritten, query, n, now, store0, r);
    assert r.iterations == [] + [r.iterations[0]];
  }

  /** With the intended check, the same run sleeps 15 seconds after its first page and
      then asks for the next one. */
  lemma IntendedScenario(query: string, n: RepoNode, now: Instant, store0: Table, r: Report)
    requires Sound(Intended, query, 10, LowBudgetScript(n, now), store0, r)
    ensures r.outcome == Failure(NoReply)
    ensures |r.iterations| == 1 && r.iterations[0].sleptFor == Some(15)
  {
    LowBudgetPass(Intended, query, n, now, store0, r);
    assert WentOn(Intended, 10, LowBudgetScript(n, now), r.iterations);
  }

  /** Both checks run over `LowBudgetScript`. */
  method LowBudgetRuns(query: string, n: RepoNode, now: Instant, store0: Table)
    returns (asWritten: Report, intended: Report)
    requires WellFormed(store0)
    ensures asWritten.outcome == Failure(PauseRaised(NaiveAwareSubtraction)) && asWritten.store == store0
    ensures intended.outcome == Failure(NoReply)
    ensures |intended.iterations| == 1 && intended.iterations[0].sleptFor == Some(15)
  {
    asWritten := SearchAndStore(AsWritten, query, 10, LowBudgetScript(n, now), store0);
    AsWrittenScenario(query, n, now, store0, asWritten);
    intended := SearchAndStore(Intended, query, 10, LowBudgetScript(n, now), store0);
    IntendedScenario(query, n, now, store0, intended);
  }

  /** Three full pages of 100 nodes `a`, `b` and `c`, each with a next page and a
      budget of 5000 points, all read at the clock `now`. */
  function ThreePageScript(a: seq<RepoNode>, b: seq<RepoNode>, c: seq<RepoNode>, now: Instant): (script: seq<Reply>)
    ensures |script| == 3
    ensures forall i :: 0 <= i < 3 ==> script[i].result.Success? && script[i].result.value.hasNextPage
    ensures script[0].result.value.nodes == a && script[1].result.value.nodes == b
    ensures script[2].result.value.nodes == c
  {
    var rl := RateLimit(Some(5000), None);
    [Reply(Success(Page(a, true, Some("c1"), rl)), now),
     Reply(Success(Page(b, true, Some("c2"), rl)), now),
     Reply(Success(Page(c, true, Some("c3"), rl)), now)]
  }

  /** Pass `m` of a log was made after the `m` passes before it, and the loop went on
      after those. */
  lemma {:induction false} PassAt(check: PauseCheck, query: string, maxRepos: int, script: seq<Reply>,
                                  iters: seq<Iteration>, m: nat)
    requires Passes(check, query, maxRepos, script, iters)
    requires m < |iters|
    ensures FetchedAfter(query, maxRepos, script, iters[..m], iters[m])
    ensures m > 0 ==> WentOn(check, maxRepos, script, iters[..m])
    decreases |iters|
  {
    var before := iters[..|iters| - 1];
    if m == |iters| - 1 {
      assert iters[..m] == before;
    } else {
      PassAt(check, query, maxRepos, script, before, m);
      assert before[..m] == iters[..m];
      assert before[m] == iters[m];
    }
  }

  /** Under a cap of 250, the first pass over `ThreePageScript` takes all of `a` and
      flushes nothing. */
  lemma ThreePageFirst(check: PauseCheck, query: string, a: seq<RepoNode>, b: seq<RepoNode>, c: seq<RepoNode>,
                       now: Instant, iters: seq<Iteration>)
    requires |a| == 100
    requires Passes(check, query, 250, ThreePageScript(a, b, c, now), iters) && iters != []
    ensures iters[0].page == ThreePageScript(a, b, c, now)[0].result.value
    ensures iters[0].taken == 100 && iters[0].flushed.None?
    ensures Collected(iters[..1]) == a && Flushed(iters[..1]) == []
  {
    var script := ThreePageScript(a, b, c, now);
    PassAt(check, query, 250, script, iters, 0);
    assert iters[..0] == [];
    assert TakenNodes(iters[0]) == a;
    AppendedNodes([], iters[0]);
    assert [] + [iters[0]] == iters[..1];
  }

  /** The second pass takes all of `b`; if it flushed, it stored the records of `a`
      and `b` together. */
  lemma ThreePageSecond(check: PauseCheck, query: string, a: seq<RepoNode>, b: seq<RepoNode>, c: seq<RepoNode>,
                        now: Instant, iters: seq<Iteration>)
    requires |a| == 100 && |b| == 100
    requires Passes(check, query, 250, ThreePageScript(a, b, c, now), iters) && |iters| >= 2
    ensures iters[1].page == ThreePageScript(a, b, c, now)[1].result.value
    ensures iters[1].taken == 100
    ensures iters[1].flushed.Some? ==> iters[1].flushed.value == RecordsOf(a + b)
    ensures Collected(iters[..2]) == a + b
    ensures Flushed(iters[..2]) == iters[1].flushed.GetOr([])
  {
    var script := ThreePageScript(a, b, c, now);
    ThreePageFirst(check, query, a, b, c, now, iters);
    PassAt(check, query, 250, script, iters, 1);
    assert TakenNodes(iters[1]) == b;
    AppendedNodes(iters[..1], iters[1]);
    assert iters[..1] + [iters[1]] == iters[..2];
    assert [] + iters[1].flushed.GetOr([]) == iters[1].flushed.GetOr([]);
  }

  /** The third pass takes the first 50 nodes of `c` and flushes nothing. */
  lemma ThreePageThird(check: PauseCheck, query: string, a: seq<RepoNode>, b: seq<RepoNode>, c: seq<RepoNode>,
                       now: Instant, iters: seq<Iteration>)
    requires |a| == 100 && |b| == 100 && |c| == 100
    requires Passes(check, query, 250, ThreePageScript(a, b, c, now), iters) && |iters| == 3
    ensures iters[2].page == ThreePageScript(a, b, c, now)[2].result.value
    ensures iters[2].taken == 50 && iters[2].flushed.None?
    ensures Collected(iters) == a + b + c[..50]
    ensures Flushed(iters) == iters[1].flushed.GetOr([])
  {
    var script := ThreePageScript(a, b, c, now);
    ThreePageSecond(check, query, a, b, c, now, iters);
    PassAt(check, query, 250, script, iters, 2);
    assert TakenNodes(iters[2]) == c[..50];
    AppendedNodes(iters[..2], iters[2]);
    assert iters[..2] + [iters[2]] == iters;
  }

  /** The budget of `ThreePageScript`'s pages never makes either check sleep or raise. */
  lemma ThreePageNeverPauses(check: PauseCheck, a: seq<RepoNode>, b: seq<RepoNode>, c: seq<RepoNode>, now: Instant, i: nat)
    requires i < 3
    ensures PauseOf(check, ThreePageScript(a, b, c, now)[i].result.value.rateLimit, ThreePageScript(a, b, c, now)[i].now)
      == Success(None)
  {
  }

  /** A run that ended after a pass from which the loop would have gone on, with a
      further page to come, ran out of replies or failed to store a full buffer. */
  lemma EndedEarly(check: PauseCheck, maxRepos: int, script: seq<Reply>, r: Report)
    requires Returned(maxRepos, r) && Failed(check, maxRepos, script, r)
    requires r.iterations != [] && r.iterations[|r.iterations| - 1].page.hasNextPage
    requires |Collected(r.iterations)| < maxRepos
    requires PauseOf(check, r.iterations[|r.iterations| - 1].page.rateLimit, script[|r.iterations| - 1].now).Success?
    requires |r.iterations| < |script| ==> script[|r.iterations|].result.Success?
    ensures |r.iterations| == |script| ||
      (r.outcome.Failure? && r.outcome.error.StoreFailed? &&
       |Flushed(r.iterations)| + FlushThreshold <= |Collected(r.iterations)|)
  {
    if r.outcome.Failure? && r.outcome.error.StoreFailed? {
      RecordsOfElements(Collected(r.iterations));
      assert |Flushed(r.iterations) + r.outcome.error.batch| == |Collected(r.iterations)|;
    }
  }

  /** A run that took as many nodes as the cap either returned or failed to store a
      batch. */
  lemma EndedAtCap(check: PauseCheck, maxRepos: int, script: seq<Reply>, r: Report)
    requires Returned(maxRepos, r) && Failed(check, maxRepos, script, r)
    requires r.iterations != [] && |Collected(r.iterations)| >= maxRepos
    requires |r.iterations| == |script|
    ensures r.outcome.Success? || r.outcome.error.StoreFailed?
  {
  }

  /** A run over `ThreePageScript` under a cap of 250 either fails to store a batch or
      returns after three passes. */
  lemma ThreePageOutcome(check: PauseCheck, query: string, a: seq<RepoNode>, b: seq<RepoNode>, c: seq<RepoNode>,
                         now: Instant, r: Report)
    requires |a| == 100 && |b| == 100 && |c| == 100
    requires Logged(check, query, 250, ThreePageScript(a, b, c, now), r.iterations)
    requires Returned(250, r) && Failed(check, 250, ThreePageScript(a, b, c, now), r)
    ensures 2 <= |r.iterations| <= 3
    ensures r.outcome.Success? || r.outcome.error.StoreFailed?
    ensures r.outcome.Success? ==> |r.iterations| == 3
  {
    var script := ThreePageScript(a, b, c, now);
    FirstPageMakesPass(check, 250, script, r);
    ThreePageFirst(check, query, a, b, c, now, r.iterations);
    var n := |r.iterations|;
    ThreePageNeverPauses(check, a, b, c, now, n - 1);
    PassAt(check, query, 250, script, r.iterations, n - 1);
    if n <= 2 {
      if n == 2 {
        ThreePageSecond(check, query, a, b, c, now, r.iterations);
        assert r.iterations[..2] == r.iterations;
      } else {
        assert r.iterations[..1] == r.iterations;
      }
      EndedEarly(check, 250, script, r);
    } else {
      ThreePageThird(check, query, a, b, c, now, r.iterations);
      EndedAtCap(check, 250, script, r);
    }
  }

  /** A run over `ThreePageScript` that returns stored the first 200 records in its
      second pass and the last 50 in its final flush. */
  lemma ThreePageCommitted(check: PauseCheck, query: string, a: seq<RepoNode>, b: seq<RepoNode>, c: seq<RepoNode>,
                           now: Instant, r: Report)
    requires |a| == 100 && |b| == 100 && |c| == 100
    requires Logged(check, query, 250, ThreePageScript(a, b, c, now), r.iterations)
    requires Returned(250, r) && r.outcome.Success? && |r.iterations| == 3
    ensures r.outcome.value == 250 && r.iterations[2].taken == 50
    ensures r.iterations[1].flushed == Some(RecordsOf(a + b))
    ensures r.finalFlush == Some(RecordsOf(c[..50]))
  {
    var script := ThreePageScript(a, b, c, now);
    ThreePageThird(check, query, a, b, c, now, r.iterations);
    PassAt(check, query, 250, script, r.iterations, 2);
    assert r.iterations[..2] == r.iterations[..3][..2];
    ThreePageSecond(check, query, a, b, c, now, r.iterations);
    assert Drained(r.iterations[..2]);
    assert r.iterations[1].flushed.Some?;
    RecordsOfConcat(a + b, c[..50]);
    RecordsOfElements(c[..50]);
    var first := RecordsOf(a + b);
    var rest := r.finalFlush.GetOr([]);
    assert Committed(r) == first + rest;
    assert first + rest == first + RecordsOf(c[..50]);
    assert rest == (first + rest)[|first|..];
    assert rest == RecordsOf(c[..50]);
  }

  /** Three pages of 100 under a cap of 250: the passes take 100, 100 and 50 nodes. The
      second pass stores the first 200 records in the loop, and a run that returns gives
      250 with a final flush of the last 50, its table gaining exactly their ids. The
      only way such a run can fail is a batch the store refuses; it never runs out of
      replies, and the rate-limit check never raises. */
  lemma ThreePageScenario(check: PauseCheck, query: string, a: seq<RepoNode>, b: seq<RepoNode>, c: seq<RepoNode>,
                          now: Instant, store0: Table, r: Report)
    requires |a| == 100 && |b| == 100 && |c| == 100
    requires Sound(check, query, 250, ThreePageScript(a, b, c, now), store0, r)
    ensures r.outcome.Success? || r.outcome.error.StoreFailed?
    ensures r.iterations[0].taken == 100 && r.iterations[1].taken == 100
    ensures r.outcome.Success? ==>
      && r.outcome.value == 250
      && |r.iterations| == 3 && r.iterations[2].taken == 50
      && r.iterations[1].flushed == Some(RecordsOf(a + b))
      && r.finalFlush == Some(RecordsOf(c[..50]))
      && r.store.Keys == store0.Keys + Ids(RecordsOf(a + b + c[..50]))
  {
    ThreePageOutcome(check, query, a, b, c, now, r);
    ThreePageFirst(check, query, a, b, c, now, r.iterations);
    ThreePageSecond(check, query, a, b, c, now, r.iterations);
    if r.outcome.Success? {
      ThreePageCommitted(check, query, a, b, c, now, r);
      ThreePageThird(check, query, a, b, c, now, r.iterations);
    }
  }

  /** The collection of `ThreePageScript` under a cap of 250, run from `store0`. */
  method ThreePageRun(check: PauseCheck, query: string, a: seq<RepoNode>, b: seq<RepoNode>, c: seq<RepoNode>,
                      now: Instant, store0: Table)
    returns (r: Report)
    requires |a| == 100 && |b| == 100 && |c| == 100 && WellFormed(store0)
    ensures r.outcome.Success? || r.outcome.error.StoreFailed?
    ensures r.outcome.Success? ==>
      r.outcome.value == 250 && r.store.Keys == store0.Keys + Ids(RecordsOf(a + b + c[..50]))
  {
    r := SearchAndStore(check, query, 250, ThreePageScript(a, b, c, now), store0);
    ThreePageScenario(check, query, a, b, c, now, store0, r);
  }
}
