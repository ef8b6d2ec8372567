# GitHub star crawler: a Dafny model of the collection engine

The crawler walks GitHub's repository search one creation-date window at a time. It
starts at 2008-01-01 and moves in steps of `STEP_DAYS` days up to the current time. For
each window it asks for `created:<from>..<to> stars:>0` and takes at most the number of
repositories still needed to reach `TARGET_TOTAL`. It pages through the results 100 at a
time. Each node becomes a record, and the records are upserted into a Postgres `repos`
table in batches once 200 are pending, with a final flush of the remainder. When fewer
than 100 points remain the loop is meant to sleep until the rate-limit reset; as written,
that check raises TypeError instead (see Findings), and the model runs the loop both
ways. Each GraphQL call is
retried on transport and 5xx errors: up to 6 attempts, with waits between 2 and 30
seconds.

The model is pure Dafny. It has one module per piece of the program:

- `Outcomes`, `Time`: Python's `None` as `Option`, a raising call as `Result`. Instants
  are microseconds since 0001-01-01, as `datetime` keeps them.
- `Text`, `Calendar`: splitting at a separator, and the `YYYY-MM-DD` label of a day. The
  label is computed from the day number with the civil-from-days algorithm, so query
  strings can be stated exactly.
- `Partitions`: `generate_date_partitions`. The windows are half-open instant ranges
  `[lower, upper)`, and the labels are their dates. The generator raises OverflowError
  where a window's start plus the step passes `datetime`'s maximum, 9999-12-31.
- `Records`: the search node and `repo_node_to_dict`.
- `RepoStore`: the `repos` table as a map from `repo_id` to the row, together with its
  constraints: `repo_id` is the primary key and `full_name` is unique. It also models
  `upsert_repo` and `bulk_upsert`. The database's `now()` is the transaction time, passed
  in as a parameter.
- `GraphQLClient`: `post` is one classifier for a single attempt, plus the tenacity retry
  policy as a recursive function. The function runs over the attempts the server would
  answer, given as `server(k)`.
- `Collector`: `search_and_store` as a method with loop invariants. It runs over the
  replies its calls meet, in order, and it produces a log of passes. Each pass records
  the request, the page, the nodes taken, the batch flushed and the sleep. The method
  also returns the final flush, the count or the error, and the table. It takes the
  rate-limit check as a parameter: the intended one, or the one as written. `Sound` is
  the contract of a whole run. It covers:
  - the cap;
  - conservation of records: on a run that returns a count, everything taken is
    committed exactly once, in arrival order. A run that raises commits only a prefix
    of what it took: its pending records, or the batch that failed, are lost, as the
    code has no `try`/`finally` around the loop. An in-loop flush stores the whole pending buffer exactly when it holds
    200 or more;
  - the stop rule and the cursor chaining;
  - the sleep decision, or the TypeError of the check as written;
  - the table: it is what storing the logged batches one after the other makes of the
    starting table, and it keeps its constraints.
- `Orchestrator`: the window loop of `main`. It covers the query text, the running total,
  the stop at the target, the skipping of windows that raise, and the uncaught
  OverflowError of the generator.

A status of 600 or more is modelled as the code handles it. `raise_for_status()` raises
only for 500..599, so such a status falls through to the 401, 403 and `errors` checks
like any other.

## Model

| member | source | states |
|---|---|---|
| Partitions.Windows | src/crawl_stars.py:36-44 | There are no windows exactly when start >= end. The first window starts at start and the last ends at end. Each window is non-empty and no longer than the step, consecutive windows share their boundary, and every window but the last is exactly one step long. |
| Partitions.Step | src/crawl_stars.py:42 | `timedelta(days=stepDays)` is at least one day for a positive step. |
| Partitions.Labels | src/crawl_stars.py:43 | Both labels of a window are made of digits and dashes only. |
| Partitions.Yielded | src/crawl_stars.py:41-43 | The generator yields exactly the windows before the first one whose start plus the step lies past `datetime`'s maximum. |
| Partitions.GenerateDatePartitions | src/crawl_stars.py:36-44 | Yields one `(from, to)` label pair per window, in window order. Each pair is the dates of that window's two ends. It raises OverflowError if and only if it stops short of the last window, and then the next window's start plus the step lies past `datetime`'s maximum. |
| Partitions.InRangeYieldsAll | src/crawl_stars.py:40-44 | When the end lies a step or more before the end of `datetime`'s range, every window is yielded and nothing raises. |
| Partitions.HugeStepRaises | src/crawl_stars.py:41-42 | A first window whose start plus the step passes year 9999 raises before any pair is yielded. |
| Partitions.WindowsWithin | src/crawl_stars.py:40-44 | Every window lies inside [start, end). |
| Partitions.WindowsOrdered | src/crawl_stars.py:40-44 | An earlier window ends no later than any later window starts. |
| Partitions.WindowsCoverRange | src/crawl_stars.py:40-44 | An instant lies in some window if and only if it lies in [start, end): the windows leave no gap. |
| Partitions.WindowsCoverInside | src/crawl_stars.py:40-44 | Every instant of [start, end) lies in some window. |
| Partitions.WindowsMissOutside | src/crawl_stars.py:40-44 | No instant outside [start, end) lies in any window. |
| Partitions.WindowsDisjoint | src/crawl_stars.py:40-44 | No instant lies in two windows: the windows do not overlap. |
| Partitions.WindowCountBounds | src/crawl_stars.py:41-44 | The window count n is the least n with n * step >= end - start, and no windows are made when start >= end. |
| Partitions.WindowCount | src/crawl_stars.py:41-44 | For start < end there are exactly ceil((end - start) / step) windows. |
| Partitions.LabelDays | src/crawl_stars.py:42-43 | A window's `to` date is never before its `from` date. Every window but the last spans exactly `stepDays` dates, so only the last can be shorter. |
| Partitions.LabelsChain | src/crawl_stars.py:43-44 | Each pair's `to` label is the next pair's `from` label. |
| Partitions.FinalLabelsCanCoincide | src/crawl_stars.py:43 | `.date()` truncation can give the final window equal `from` and `to` labels, when the end falls on the same date as that window's start. |
| Partitions.TwoWindowScenario | src/crawl_stars.py:36-44 | From 2020-01-01 to 2020-01-10 with a 7-day step there are exactly two label pairs, 2020-01-01..2020-01-08 and 2020-01-08..2020-01-10. |
| Records.RepoNodeToRecord | src/crawl_stars.py:19-33 | The record's `repo_id` is the node id. Owner and name come from the node, and the full name splits back into them at its first '/'. Stars are the node's count, or 0 when it is absent. Url and both timestamps are passed through, and `metadata` is always `{}`. |
| Records.FullNameSplits | src/crawl_stars.py:25 | `owner/name` splits back into owner and name when the owner has no '/'. |
| Records.RecordsOf | src/crawl_stars.py:62-63 | A page's nodes give one record each. |
| Records.RecordsOfElements | src/crawl_stars.py:62-63 | The i-th record of a page is the mapping of the page's i-th node. |
| Records.RecordsOfConcat | src/crawl_stars.py:62-63 | Mapping two runs of nodes in a row gives the two runs of records in a row. |
| Calendar.IsoDate | src/crawl_stars.py:43 | A day's `isoformat()` label holds only digits and dashes, is at least ten characters long, and starts with a digit. |
| RepoStore.InsertedRow | src/db.py:19-32 | A plain insert writes every supplied column as given. `metadata` falls back to the column default `{}` when not supplied, and `last_crawled_at` is left NULL. |
| RepoStore.Upsert | src/models.py:7-47 | The upsert fails exactly when the `repo_id` is new and another row holds the `full_name`, and the error is a unique violation on `full_name`. On a known `repo_id`, the row count is unchanged and only stars, `repo_updated_at`, url, metadata (kept as stored, `{}` if NULL) and `last_crawled_at` (set to now) change. On a new `repo_id`, exactly one row is added, equal to the inserted row. No other row changes. |
| RepoStore.BulkUpsert | src/models.py:50-57 | On success the table holds exactly the old ids plus the batch's ids. Every row whose id is not in the batch is unchanged. |
| RepoStore.UpsertKeepsWellFormed | src/db.py:22-23 | A successful upsert keeps `repo_id` a key and `full_name` unique. |
| RepoStore.BulkUpsertKeepsWellFormed | src/db.py:22-23 | A successful batch keeps `repo_id` a key and `full_name` unique. |
| RepoStore.UpdateKeepsWellFormed | src/db.py:22-23 | Rewriting a row under its own key, with its full name unchanged, keeps the constraints. |
| RepoStore.InsertKeepsWellFormed | src/db.py:22-23 | Adding a row under a new key, with a full name no row holds, keeps the constraints. |
| RepoStore.UpsertIdempotent | src/models.py:20-37 | Upserting the same record a second time changes nothing except `last_crawled_at`, which becomes the second time. |
| RepoStore.UpsertWritesColumns | src/models.py:23-25 | After any successful upsert, the row holds the record's stars, url and `repo_updated_at`, on both the insert and the conflict path. |
| RepoStore.BulkUpsertLastWriterWins | src/models.py:55-57 | Records are applied in list order: the last record with a given `repo_id` decides that row's stars, url and `repo_updated_at`. |
| RepoStore.UpsertKeepsClash | src/models.py:7-47 | An upsert under another `repo_id` leaves a new id new and a taken `full_name` taken, because the conflict update never renames a row. |
| RepoStore.BulkUpsertNameClash | src/models.py:55-57 | A record with a new `repo_id` whose `full_name` an existing row holds fails the whole batch, wherever it sits, when no earlier record of the batch has the same `repo_id`. |
| RepoStore.MetadataKeptScenario | src/models.py:27-34 | A second upsert with stars 9, url b and metadata `{"note": ...}` leaves stars 9 and url b, but metadata stays `{}`. |
| RepoStore.FlushKeepsStore | src/models.py:50-57 | A batch that stores successfully keeps the table well formed. Afterwards the table holds exactly the original ids plus the ids committed so far, and every other row is as it was. |
| GraphQLClient.Classify | src/github_client.py:67-81 | A transport failure or a 5xx status is a RequestException (retryable), and nothing else is. A 401 raises Unauthorized, and a 403 raises Forbidden with the response text. Any other status whose body has "errors" raises a GraphQL error. Otherwise the parsed body is returned unchanged. Each of these holds as an if-and-only-if. |
| GraphQLClient.Backoff | src/github_client.py:58 | Every wait lies in [2, 30] seconds. |
| GraphQLClient.Waits | src/github_client.py:58 | Between attempts lo and hi there are hi - lo waits, each in [2, 30] seconds. |
| GraphQLClient.RetryFrom | src/github_client.py:57-61 | From attempt n on, every attempt before the last raised a RequestException, and at most 6 attempts are made in all. The call returns the last attempt's body if it passed the checks. It re-raises the last attempt's exception if that is not a RequestException. It gives up with RetryError only at the 6th attempt. |
| GraphQLClient.Post | src/github_client.py:57-81 | Makes 1 to 6 attempts, and only a RequestException leads to another attempt. The outcome is the first body that passes, the first other exception re-raised, or RetryError after six RequestExceptions. There is one wait fewer than the attempts, each wait in [2, 30] seconds. |
| GraphQLClient.SearchReposPage | src/github_client.py:83-89 | The variables sent are the query string, the page size and the cursor, each as given. |
| GraphQLClient.AuthFailuresNotRetried | src/github_client.py:71-75 | A 401 or 403 on the first attempt ends the call after that single attempt, raising Unauthorized or Forbidden(text). |
| GraphQLClient.PersistentServerErrorGivesUp | src/github_client.py:57-61 | A server that always answers 502 is tried 6 times, with waits 2, 2, 4, 8 and 16 seconds, and the call ends with RetryError(502). |
| Collector.RateLimitPause | src/crawl_stars.py:83-95 | The loop sleeps if and only if `remaining` is known and below 100 and `resetAt` is present and ahead of now. The sleep is then the whole seconds until the reset plus 5. |
| Collector.PauseOutlastsReset | src/crawl_stars.py:92-95 | A sleep, once taken, ends at least 4 seconds after the reset. |
| Collector.PauseScenario | src/crawl_stars.py:83-95 | 5 points left and a reset 10.5 s ahead give a 15 s sleep. 100 points left, a reset at now, or an unknown `remaining` give no sleep. |
| Collector.RateLimitPauseAsWritten | src/crawl_stars.py:86-93 | As written, the check raises exactly when `remaining` is known and below 100 and a reset time is given, and otherwise the loop goes on without sleeping. |
| Collector.AsWrittenRaisesInsteadOfSleeping | src/crawl_stars.py:86-93 | Wherever the written check does not raise it agrees with the intended pause. Wherever the intended pause sleeps, the written check raises. |
| Collector.PauseScenarioAsWritten | src/crawl_stars.py:86-93 | 5 points left and a reset 10 s ahead: the intended check sleeps 15 s, and the written one raises TypeError. |
| Collector.TakeCount | src/crawl_stars.py:62-66 | The inner loop takes at most the page's nodes, at least one of a non-empty page, and all of them unless the cap was reached. It never takes a node past the one that meets the cap. |
| Collector.TakeWithinCap | src/crawl_stars.py:62-66 | After a pass the count stays within the cap (within 1 when the cap is below 1). |
| Collector.FlushIfFull | src/crawl_stars.py:69-72 | A flush happens if and only if at least 200 records are pending. It stores exactly the whole pending buffer and empties it, so fewer than 200 stay pending. A batch that raises leaves the buffer and table as they were and carries the error. |
| Collector.FlushIfFullKeepsStore | src/crawl_stars.py:69-72 | A flush that does not raise keeps the table's relation to the records committed so far. |
| Collector.TakeAndFlush | src/crawl_stars.py:60-72 | A pass appends the records of the taken nodes to the pending ones, then flushes as `FlushIfFull` says. What was flushed followed by what stays pending is exactly the old pending records plus the new ones. A flush is the whole buffer and the table is the one the batch upsert returned. |
| Collector.ReplayStep | src/crawl_stars.py:69-72 | A pass that flushed nothing leaves the table as it was, and one that flushed moves it to what the batch upsert returned. |
| Collector.PassAppended | src/crawl_stars.py:56-72 | A page taken, with any full buffer stored, extends the log: the pass follows the loop, and the table is the replay of the batches so far. |
| Collector.PassesFollowScript | src/crawl_stars.py:57-60 | Each pass asked with the query and `first=100` and got its own reply's page. There are never more passes than replies. |
| Collector.ApiFailureEnds | src/crawl_stars.py:57 | A raising `search_repos_page` ends the run with that error, having committed only records that were taken, in order. |
| Collector.StopWithoutFlush | src/crawl_stars.py:74-101 | Stopping with nothing pending returns the count taken, and everything taken was already committed. |
| Collector.StopWithFlush | src/crawl_stars.py:97-101 | Stopping with 1..199 records pending flushes exactly them, and then everything taken is committed, in order. |
| Collector.Finish | src/crawl_stars.py:74-101 | The end of a run after the loop stopped satisfies `Sound`, whether or not the final flush happens and whether or not it raises. |
| Collector.StoreFailure | src/crawl_stars.py:69-72 | A raising in-loop flush ends the run with the batch it could not store. That batch is exactly the records taken but not yet committed, and the table is as before it. |
| Collector.PauseRaisedEnds | src/crawl_stars.py:86-92 | A check that raises after a pass the loop would go on from ends the run with that error, with the pending records not stored. |
| Collector.StoreFailureEnds | src/crawl_stars.py:69-99 | A batch upsert that raises ends the run with the rest of the records taken as its batch. The batch is the final flush unless it holds 200 or more, and the table is as before it. |
| Collector.Decide | src/crawl_stars.py:74-95 | After a pass, the loop stops and flushes, ends where the check raised, or goes on with the recorded sleep; the first two end in a `Sound` report. |
| Collector.PassStored | src/crawl_stars.py:74-95 | A pass whose in-loop flush did not raise logs the sleep the check gives, or none when the loop stops or the check raises. |
| Collector.Pass | src/crawl_stars.py:54-95 | One pass either ends the run with a `Sound` report, or keeps the loop invariant with one more pass in the log. |
| Collector.SearchAndStore | src/crawl_stars.py:47-101 | `Sound` holds: the count never exceeds the cap (1 when the cap is below 1). A count is returned only after the last page or once the cap is met, and it is the number of nodes taken. On a run that returns a count, everything taken was committed exactly once, in arrival order. A run that ends in an error commits only a prefix of what it took: the pending records, or the failing batch, are lost. An in-loop flush stores the whole pending buffer, and it happens exactly when 200 or more are pending. Each request's cursor is the previous page's `endCursor`. A sleep happens only between passes and is what the check gives; where the check raises, the run ends with that error. The table is the result of storing each logged batch in turn, at its pass's clock, and then the final flush. It keeps its constraints and gains exactly the committed ids. |
| Collector.LogDeterminesStore | src/crawl_stars.py:69-99 | Two runs with the same passes and the same final flush leave the same table: the logged batches fix every row's contents. |
| Collector.InLoopFlushTakesAll | src/crawl_stars.py:69-72 | A pass that flushed in the loop stored every record taken so far, so a run whose last pass flushed has no final flush. |
| Collector.AsWrittenPassesNeverSleep | src/crawl_stars.py:86-95 | As written, no pass the loop went on from slept. |
| Collector.AsWrittenNeverSleeps | src/crawl_stars.py:86-95 | As written, no pass of any run sleeps. |
| Collector.RaisesWhereCheckFails | src/crawl_stars.py:69-92 | As written, a pass the loop would go on from, with fewer than 100 points left and a reset time given, ends the run with TypeError, unless its in-loop flush raised first. |
| Collector.AsWrittenScenario | src/crawl_stars.py:54-101 | As written, one page with a node, a next page, 5 points left and a reset 10 s ahead ends in TypeError: nothing sleeps, the node's record is never stored, and the table is unchanged. |
| Collector.IntendedScenario | src/crawl_stars.py:54-95 | With the intended check, the same page leads to a 15 s sleep and a request for the next page. |
| Collector.EndedEarly | src/crawl_stars.py:56-95 | A run can end after a pass that has a next page, stays below the cap and passes the rate-limit check in only two ways. Either no reply follows, or it failed to store a full buffer of 200 or more. |
| Collector.EndedAtCap | src/crawl_stars.py:74-101 | A run that took as many nodes as the cap, with every reply used, either returned a count or failed to store a batch. |
| Collector.ThreePageScenario | src/crawl_stars.py:56-101 | Three pages of 100 nodes under a cap of 250. The passes take 100, 100 and 50 nodes, and the second pass flushes the first 200 records inside the loop. A run that returns gives 250, makes a final flush of the last 50 records, and its table gains exactly the ids of the 250 records. The only way such a run fails is a refused batch: it never runs out of replies and never raises in the rate-limit check. |
| Collector.ThreePageRun | src/crawl_stars.py:47-101 | Running the three pages under a cap of 250 either fails to store a batch, or returns 250 with the table gaining exactly the ids of the 250 records taken. |
| Collector.LowBudgetRuns | src/crawl_stars.py:47-101 | Running that page both ways gives TypeError with the table unchanged as written, and a 15 s sleep as intended. |
| Orchestrator.Query | main.py:31 | The window's query is `created:` + from + `..` + to + ` stars:>0`: stripping the prefix and suffix leaves `from..to`. |
| Orchestrator.ParseQueryOfQuery | main.py:31 | Reading a query back gives its labels whenever `from` has no '.'. |
| Orchestrator.QueryOfParseQuery | main.py:31 | Every string that reads back as labels is the query of those labels. |
| Orchestrator.QueriesDistinguishWindows | main.py:31 | Two windows with calendar labels ask the same query only if their labels are equal. |
| Orchestrator.StartIs2008 | main.py:21 | The crawl's start is the instant whose label is 2008-01-01. |
| Orchestrator.AskedStep | main.py:28-36 | Searching the next window when the total is below the target extends the log. A window that returns adds exactly its count to the total; one that raises adds nothing. |
| Orchestrator.AskedQueries | main.py:27-35 | Windows are searched in label order, each with its own labels' query and a cap of at least 1. |
| Orchestrator.SoundReport | main.py:35-36 | A window's run keeps the table well formed, never removes a `repo_id`, and returns no more than its cap. |
| Orchestrator.CrawlWindows | main.py:25-40 | Windows are searched in order while the total is below the target, each with cap target - total, and each from the table the last one left. The total counts exactly the windows that returned, and it never exceeds the target once a window ran. The loop stops before a window only once the target is met. The generator's OverflowError ends the crawl if and only if the generator overflows and every yielded window was searched. |
| Orchestrator.RunCrawl | main.py:18-40 | The windows are those of 2008-01-01 to now with the given step, crawled as `CrawlWindows` states, and the table is the one the last window left. The table stays well formed and keeps every `repo_id` it had; rows already stored may be updated by later windows. |
| Orchestrator.HugeStepScenario | main.py:27 | A step of three million days raises OverflowError from the generator before any window is searched, and the table is untouched. |

## Left out

- HTTP, the `requests` session, headers and the token: an attempt is an abstract transport failure or response.
- The GraphQL query text: a reply's page is the parsed `data.search` and `data.rateLimit`.
- Malformed responses are left out. This covers three cases:
  - A body that is not JSON makes `resp.json()` raise inside `post` (src/github_client.py:77). Whether tenacity retries that depends on the installed `requests` version: only in some versions is its JSONDecodeError a `RequestException`.
  - A body without `data.search` raises KeyError at src/crawl_stars.py:59.
  - A JSON `null` where the code indexes (such as `data: null`) raises TypeError at src/crawl_stars.py:58-59.

  The last two raise in `search_and_store` after `post` has returned, so they are never retried. They end the window the way `ApiFailed` does: the run stops with what it has stored, and `main` skips the window.
- Tenacity internals: only the attempt bound, the retry predicate and the wait formula are modelled.
- `Collector.SearchAndStore` is given each call's outcome as a reply, as `GraphQLClient.Post` would return it. It does not compose the two.
- The replies are a finite list. When they run out the run ends with a `NoReply` error, which stands for whatever the real API would do next. `main` treats that like any raising window.
- The wall clock, `time.sleep` and the ISO parsing of `resetAt`: each reply carries the clock reading, and a sleep is a recorded number of seconds.
- The PKT offset is left out because it only feeds a log line.
- `delta.total_seconds()` is a float; the model uses exact microseconds.
- The time `now()` of every flush, in-loop and final, is taken to be the clock of the reply of the pass that flushed. The rate-limit check also uses that clock. In the code, `datetime.utcnow()` is read after the in-loop flush, and Postgres uses each transaction's own start time. Only `last_crawled_at` and the sleep length depend on this.
- `createdAt` and `updatedAt` are ISO strings in the node, and Postgres parses them when it stores them. The model takes them as already parsed instants, so their parsing and any malformed value are left out.
- `RepoStore.BulkUpsert`: the only database error modelled is the unique violation on `full_name`. Other errors raised inside `engine.begin()` (a lost connection, a serialization failure, a timeout) are not modelled. `Collector.Sound`'s store-failure clause holds for any error the batch raises.
- SQLAlchemy engine creation, pooling, `DATABASE_URL` printing and `metadata.create_all`: the table is a map.
- SQL type checks: `stars` as a 32-bit integer, and non-null columns receiving JSON `null`.
- `bulk_upsert`'s `batch` parameter is never used by the code, so the model has no such parameter.
- Environment variables (`TARGET_TOTAL`, `STEP_DAYS`), logging and the pandas CSV export.
- `Partitions.GenerateDatePartitions` requires `stepDays > 0`. With step 0 the generator yields the first date forever. With a negative step it walks backwards, yielding windows whose `to` comes before their `from`, and raises OverflowError once `cur + timedelta` falls below year 1. Neither walk is modelled.
- `Orchestrator.RunCrawl` requires `stepDays > 0`, because it runs `GenerateDatePartitions`; a non-positive `STEP_DAYS` is left out as described above.
- Calendar.IsoDate: the civil-from-days arithmetic is proved to give the right date only at the days the scenarios use (2008-01-01, 2020-01-01, 2020-01-08, 2020-01-10). Its general agreement with the proleptic Gregorian calendar is not proved.
- `datetime.utcnow()` is a parameter. The model does not bound it by `datetime`'s maximum, as the real clock is.
- `Collector.SearchAndStore` proves the cap as "at most 1" when `max_repos` is below 1. The first node is taken before the cap check, and `main` always passes at least 1.

## Findings

| source | as written | input that shows it | evidently intended | confidence | as-written member | corrected member |
|---|---|---|---|---|---|---|
| src/crawl_stars.py:89-92 | `reset_ts` is parsed with a `+00:00` offset, so it is timezone-aware. `datetime.utcnow()` is naive, and subtracting the one from the other raises TypeError. The raise happens whenever the loop goes on with `remaining < 100` and a `resetAt` given. `search_and_store` then raises, so its pending records are never flushed, and `main` skips the window without counting it. | a page with `remaining = 5`, `resetAt` 10 s after now, and `hasNextPage` true | sleep `int(delta) + 5` seconds, with `delta` the time until the reset, then request the next page | high; not executed | Collector.RateLimitPauseAsWritten, Collector.AsWrittenScenario | Collector.RateLimitPause, Collector.IntendedScenario |

`Collector.SearchAndStore` and the `Orchestrator` methods take the check as a parameter.
With `AsWritten` they model the program as it stands. With `Intended` they model the
corrected loop, which sleeps as `Collector.RateLimitPause` says.
