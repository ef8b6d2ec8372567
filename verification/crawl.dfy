/** The top-level crawl (`main`): the date windows from 2008-01-01 to the current
    time, one `search_and_store` per window with the query `created:<from>..<to>
    stars:>0` and a cap of what is still needed, a running total that stops the walk
    once the target is met, and a raising window skipped without counting. */
module Orchestrator {
  import opened Outcomes
  import opened Time
  import opened RepoStore
  import Calendar
  import Text
  import Partitions
  import Collector

  const QueryPrefix: string := "created:"
  const RangeSeparator: string := ".."
  const QuerySuffix: string := " stars:>0"

  /** The search query of one window. */
  function Query(frm: string, to: string): (q: string)
    ensures Strip(q, QueryPrefix, QuerySuffix) == Some(frm + RangeSeparator + to)
  {
    StripWrapped(QueryPrefix, frm + RangeSeparator + to, QuerySuffix);
    QueryPrefix + (frm + RangeSeparator + to) + QuerySuffix
  }

  /** `q` without `prefix` and `suffix`, when it starts with the one and ends with the
      other. */
  function Strip(q: string, prefix: string, suffix: string): Option<string> {
    if |q| < |prefix| + |suffix| || q[..|prefix|] != prefix || q[|q| - |suffix|..] != suffix then None
    else Some(q[|prefix|..|q| - |suffix|])
  }

  lemma StripWrapped(prefix: string, mid: string, suffix: string)
    ensures Strip(prefix + mid + suffix, prefix, suffix) == Some(mid)
  {
    var q := prefix + mid + suffix;
    assert q[..|prefix|] == prefix;
    assert q[|q| - |suffix|..] == suffix;
    assert q[|prefix|..|q| - |suffix|] == mid;
  }

  lemma WrappedStrip(q: string, prefix: string, suffix: string)
    requires Strip(q, prefix, suffix).Some?
    ensures prefix + Strip(q, prefix, suffix).value + suffix == q
  {
    var lo, hi := |prefix|, |q| - |suffix|;
    assert q == q[..lo] + q[lo..hi] + q[hi..];
  }

  /** A window range `<from>..<to>` cut at its first '.', which must be followed by a
      second '.'. */
  function ParseRange(range: string): (r: Option<(string, string)>)
    ensures r.Some? ==> '.' !in r.value.0
  {
    var dot := Text.FirstIndex(range, '.');
    if dot.None? || dot.value + 1 >= |range| || range[dot.value + 1] != '.' then None
    else Some((range[..dot.value], range[dot.value + 2..]))
  }

  lemma ParseRangeOfRange(frm: string, to: string)
    requires '.' !in frm
    ensures ParseRange(frm + RangeSeparator + to) == Some((frm, to))
  {
    var range := frm + RangeSeparator + to;
    assert range[|frm|] == '.' && range[|frm| + 1] == '.';
    assert forall j :: 0 <= j < |frm| ==> range[j] == frm[j];
    assert Text.FirstIndex(range, '.') == Some(|frm|);
    assert range[..|frm|] == frm && range[|frm| + 2..] == to;
  }

  lemma RangeOfParseRange(range: string)
    requires ParseRange(range).Some?
    ensures ParseRange(range).value.0 + RangeSeparator + ParseRange(range).value.1 == range
  {
    var i := Text.FirstIndex(range, '.').value;
    assert range[i..i + 2] == RangeSeparator;
    assert range == range[..i] + range[i..i + 2] + range[i + 2..];
  }

  /** Reads the two window labels back out of a query. */
  function ParseQuery(q: string): Option<(string, string)> {
    match Strip(q, QueryPrefix, QuerySuffix)
    case None => None
    case Some(range) => ParseRange(range)
  }

  /** A query gives back its labels whenever the first label has no '.'. */
  lemma ParseQueryOfQuery(frm: string, to: string)
    requires '.' !in frm
    ensures ParseQuery(Query(frm, to)) == Some((frm, to))
  {
    ParseRangeOfRange(frm, to);
  }

  /** Whatever parses is the query of the labels it parses to. */
  lemma QueryOfParseQuery(q: string)
    requires ParseQuery(q).Some?
    ensures Query(ParseQuery(q).value.0, ParseQuery(q).value.1) == q
  {
    var range := Strip(q, QueryPrefix, QuerySuffix).value;
    WrappedStrip(q, QueryPrefix, QuerySuffix);
    RangeOfParseRange(range);
  }

  /** Two windows whose labels come from the calendar ask the same query only if they
      have the same labels. */
  lemma QueriesDistinguishWindows(a: (string, string), b: (string, string), dayA: nat, dayB: nat)
    requires a.0 == Calendar.IsoDate(dayA) && b.0 == Calendar.IsoDate(dayB)
    requires Query(a.0, a.1) == Query(b.0, b.1)
    ensures a == b
  {
    NoDotInLabel(dayA);
    NoDotInLabel(dayB);
    ParseQueryOfQuery(a.0, a.1);
    ParseQueryOfQuery(b.0, b.1);
  }

  lemma NoDotInLabel(day: nat)
    ensures '.' !in Calendar.IsoDate(day)
  {
    var s := Calendar.IsoDate(day);
    forall i | 0 <= i < |s|
      ensures s[i] != '.'
    {
      assert Calendar.IsLabelChar(s[i]);
    }
  }

  /** `start = datetime(2008, 1, 1)`: day 733041 counted from 0001-01-01. */
  const StartDay: nat := 733041
  const Start: Instant := StartDay * MicrosPerDay

  lemma StartIs2008()
    ensures Calendar.IsoDate(DayOf(Start)) == "2008-01-01"
  {
    assert DayOf(Start) == StartDay;
    CivilStart();
    Calendar.IsoDateOf(StartDay, 2008, 1, 1);
    assert Calendar.Padded(2008, 4) == "2008";
    assert Calendar.Padded(1, 2) == "01";
  }

  lemma CivilStart()
    ensures Calendar.Civil(StartDay) == (2008, 1, 1)
  {
    assert 733347 / 146097 == 5;
    assert 2862 / 1460 == 1 && 2862 / 36524 == 0 && 2862 / 146096 == 0;
    assert 2861 / 365 == 7 && 7 / 4 == 1 && 7 / 100 == 0;
    assert 1532 / 153 == 10 && 1532 / 5 == 306;
  }

  /** One window's call of `search_and_store`: its query, the cap it was given and
      what it did. */
  datatype WindowRun = WindowRun(query: string, need: int, report: Collector.Report)

  /** The whole crawl: the windows searched, in order, the running total and the table. */
  datatype Crawl = Crawl(runs: seq<WindowRun>, total: int, store: Table, overflowed: bool)

  /** What a window adds to the total: its count if it returned, nothing if it raised. */
  function Got(run: WindowRun): int {
    if run.report.outcome.Success? then run.report.outcome.value else 0
  }

  /** `total_collected` after the windows `runs`. */
  function Total(runs: seq<WindowRun>): (total: int)
    ensures (forall i :: 0 <= i < |runs| ==> runs[i].report.outcome.Failure?) ==> total == 0
    decreases |runs|
  {
    if runs == [] then 0 else Total(runs[..|runs| - 1]) + Got(runs[|runs| - 1])
  }

  /** The table after the windows `runs`: each call starts from the table the one
      before it left. */
  function StoreAfter(store0: Table, runs: seq<WindowRun>): Table {
    if runs == [] then store0 else runs[|runs| - 1].report.store
  }

  /** The replies the `i`-th window's calls meet; none past the given ones. */
  function ScriptFor(scripts: seq<seq<Collector.Reply>>, i: nat): seq<Collector.Reply> {
    if i < |scripts| then scripts[i] else []
  }

  /** The windows searched so far, each as `main` asks for it: in the order of the
      labels, started only while the total was below the target, with the window's
      query and a cap of what was still needed. */
  predicate Asked(labels: seq<(string, string)>, target: int, runs: seq<WindowRun>)
    decreases |runs|
  {
    && |runs| <= |labels|
    && (runs != [] ==>
      var before := runs[..|runs| - 1];
      var run := runs[|runs| - 1];
      && Asked(labels, target, before)
      && Total(before) < target
      && run.query == Query(labels[|before|].0, labels[|before|].1)
      && run.need == target - Total(before))
  }

  /** Each window's report is what `search_and_store` does with its query and cap,
      over that window's replies, from the table the previous window left. */
  predicate Chained(check: Collector.PauseCheck, scripts: seq<seq<Collector.Reply>>, store0: Table, runs: seq<WindowRun>)
    decreases |runs|
  {
    runs != [] ==>
      var before := runs[..|runs| - 1];
      var run := runs[|runs| - 1];
      && Chained(check, scripts, store0, before)
      && Collector.Sound(check, run.query, run.need, ScriptFor(scripts, |before|), StoreAfter(store0, before), run.report)
  }

  /** The windows searched so far, as `main` searches them. */
  predicate Ran(check: Collector.PauseCheck, labels: seq<(string, string)>, target: int,
                scripts: seq<seq<Collector.Reply>>, store0: Table, runs: seq<WindowRun>)
  {
    Asked(labels, target, runs) && Chained(check, scripts, store0, runs)
  }

  /** The loop of `main` over the window labels. */
  method CrawlWindows(check: Collector.PauseCheck, labels: seq<(string, string)>, overflows: bool, target: int,
                      scripts: seq<seq<Collector.Reply>>, store0: Table)
    returns (c: Crawl)
    requires WellFormed(store0)
    ensures Ran(check, labels, target, scripts, store0, c.runs)
    ensures c.total == Total(c.runs)
    ensures c.store == StoreAfter(store0, c.runs)
    ensures |c.runs| < |labels| ==> c.total >= target
    ensures c.runs != [] ==> c.total <= target
    ensures WellFormed(c.store) && store0.Keys <= c.store.Keys
    ensures c.overflowed <==> overflows && |c.runs| == |labels|
  {
    var runs: seq<WindowRun> := [];
    var total := 0;
    var store := store0;
    while |runs| < |labels|
      invariant Ran(check, labels, target, scripts, store0, runs)
      invariant total == Total(runs) && store == StoreAfter(store0, runs)
      invariant runs != [] ==> total <= target
      invariant WellFormed(store) && store0.Keys <= store.Keys
      decreases |labels| - |runs|
    {
      if total >= target {
        return Crawl(runs, total, store, false);
      }
      var i := |runs|;
      var q := Query(labels[i].0, labels[i].1);
      var need := target - total;
      var r := Collector.SearchAndStore(check, q, need, ScriptFor(scripts, i), store);
      var run := WindowRun(q, need, r);
      AskedStep(labels, target, runs, run);
      ChainedStep(check, scripts, store0, runs, run);
      StoreAfterStep(store0, runs, run);
      SoundReport(check, q, need, ScriptFor(scripts, i), store, r);
      runs := runs + [run];
      total := total + Got(run);
      store := r.store;
    }
    // The `for` asks the generator for one more pair: it raises if the walk overflowed.
    return Crawl(runs, total, store, overflows);
  }

  lemma AskedStep(labels: seq<(string, string)>, target: int, runs: seq<WindowRun>, run: WindowRun)
    requires Asked(labels, target, runs) && |runs| < |labels|
    requires Total(runs) < target
    requires run.query == Query(labels[|runs|].0, labels[|runs|].1)
    requires run.need == target - Total(runs)
    ensures Asked(labels, target, runs + [run])
    ensures Total(runs + [run]) == Total(runs) + Got(run)
  {
    var after := runs + [run];
    assert after[..|after| - 1] == runs;
  }

  lemma StoreAfterStep(store0: Table, runs: seq<WindowRun>, run: WindowRun)
    ensures StoreAfter(store0, runs + [run]) == run.report.store
  {
  }

  lemma ChainedStep(check: Collector.PauseCheck, scripts: seq<seq<Collector.Reply>>, store0: Table,
                    runs: seq<WindowRun>, run: WindowRun)
    requires Chained(check, scripts, store0, runs)
    requires Collector.Sound(check, run.query, run.need, ScriptFor(scripts, |runs|), StoreAfter(store0, runs), run.report)
    ensures Chained(check, scripts, store0, runs + [run])
  {
    var after := runs + [run];
    assert after[..|after| - 1] == runs;
  }

  /** A run of `search_and_store` keeps the table well formed, only adds rows, and
      returns no more than its cap (when the cap is positive). */
  lemma SoundReport(check: Collector.PauseCheck, query: string, need: int, script: seq<Collector.Reply>, store: Table,
                    r: Collector.Report)
    requires Collector.Sound(check, query, need, script, store, r)
    ensures WellFormed(r.store) && store.Keys <= r.store.Keys
    ensures r.outcome.Success? ==> r.outcome.value <= Collector.MaxOne(need)
  {
  }

  /** Every window searched was asked with its own labels' query and a positive cap,
      and the caps shrink by what the earlier windows returned. */
  lemma {:induction false} AskedQueries(labels: seq<(string, string)>, target: int, runs: seq<WindowRun>)
    requires Asked(labels, target, runs)
    ensures forall i :: 0 <= i < |runs| ==>
      runs[i].query == Query(labels[i].0, labels[i].1) && runs[i].need >= 1
    decreases |runs|
  {
    if runs != [] {
      var before := runs[..|runs| - 1];
      AskedQueries(labels, target, before);
      forall i | 0 <= i < |runs|
        ensures runs[i].query == Query(labels[i].0, labels[i].1) && runs[i].need >= 1
      {
        if i < |before| {
          assert runs[i] == before[i];
        }
      }
    }
  }

  /** `main`: the windows from 2008-01-01 to `now` in steps of `stepDays` days, crawled
      towards `target`. When the generator raises OverflowError, which `main` does not
      catch, `c.overflowed` is set: the run stops there and the export never happens. */
  method RunCrawl(check: Collector.PauseCheck, now: Instant, target: int, stepDays: int, scripts: seq<seq<Collector.Reply>>, store0: Table)
    returns (g: Partitions.Generated, c: Crawl)
    requires stepDays > 0
    requires WellFormed(store0)
    ensures g == Partitions.GenerateDatePartitions(Start, now, stepDays)
    ensures Ran(check, g.labels, target, scripts, store0, c.runs)
    ensures c.total == Total(c.runs)
    ensures c.store == StoreAfter(store0, c.runs)
    ensures |c.runs| < |g.labels| ==> c.total >= target
    ensures c.runs != [] ==> c.total <= target
    ensures WellFormed(c.store) && store0.Keys <= c.store.Keys
    ensures c.overflowed <==> g.overflows && |c.runs| == |g.labels|
  {
    g := Partitions.GenerateDatePartitions(Start, now, stepDays);
    c := CrawlWindows(check, g.labels, g.overflows, target, scripts, store0);
  }

  /** A step of three million days from 2008-01-01 reaches past year 9999: `main`
      raises OverflowError before searching any window, and nothing is stored. */
  method HugeStepScenario(check: Collector.PauseCheck, now: Instant, target: int, scripts: seq<seq<Collector.Reply>>, store0: Table)
    returns (c: Crawl)
    requires Start < now && WellFormed(store0)
    ensures c.overflowed && c.runs == [] && c.store == store0
  {
    var g;
    Partitions.HugeStepRaises(Start, now, 3_000_000);
    g, c := RunCrawl(check, now, target, 3_000_000, scripts, store0);
  }
}
