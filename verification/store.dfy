/** The `repos` table and its upsert layer (`upsert_repo`, `bulk_upsert`). The table is
    a map from the primary key `repo_id` to the row; database time `now()` is the
    transaction's start time, so one `now` serves a whole batch. */
module RepoStore {
  import opened Outcomes
  import opened Time
  import opened Records

  /** One row of `repos`. The nullable columns are Options; repo_id, full_name, owner,
      name and stars are NOT NULL and are plain values. */
  datatype Row = Row(
    repoId: string,
    fullName: string,
    owner: string,
    name: string,
    url: Option<string>,
    stars: int,
    createdAt: Option<Instant>,
    repoUpdatedAt: Option<Instant>,
    lastCrawledAt: Option<Instant>,
    metadata: Option<Json>)

  /** The table, keyed by `repo_id`. */
  type Table = map<string, Row>

  /** The rows under two keys carry the same full name. */
  predicate SameName(t: Table, k1: string, k2: string)
    requires k1 in t && k2 in t
  {
    t[k1].fullName == t[k2].fullName
  }

  /** The table constraints: every row sits under its own repo_id (PRIMARY KEY), and no
      two rows share a full_name (UNIQUE). */
  predicate WellFormed(t: Table) {
    && (forall k :: k in t ==> t[k].repoId == k)
    && (forall k1, k2 {:trigger SameName(t, k1, k2)} :: k1 in t && k2 in t && SameName(t, k1, k2) ==> k1 == k2)
  }

  /** The integrity error an INSERT raises. */
  datatype DbError = UniqueViolation(column: string, value: string)

  /** Some row already carries this full_name. */
  predicate NameTaken(t: Table, fullName: string) {
    exists k :: k in t && t[k].fullName == fullName
  }

  /** The repo ids of a sequence of records. */
  function Ids(rs: seq<Record>): (ids: set<string>)
    ensures forall i :: 0 <= i < |rs| ==> rs[i].repoId in ids
    decreases |rs|
  {
    if rs == [] then {} else {rs[0].repoId} + Ids(rs[1..])
  }

  /** An id is among a batch's ids exactly when some record of the batch carries it. */
  lemma {:induction false} IdsMembers(rs: seq<Record>, id: string)
    ensures id in Ids(rs) <==> exists i :: 0 <= i < |rs| && rs[i].repoId == id
    decreases |rs|
  {
    if rs != [] {
      IdsMembers(rs[1..], id);
      if exists i :: 0 <= i < |rs| && rs[i].repoId == id {
        var i :| 0 <= i < |rs| && rs[i].repoId == id;
        if i > 0 {
          assert rs[1..][i - 1].repoId == id;
        }
      }
      if exists i :: 0 <= i < |rs[1..]| && rs[1..][i].repoId == id {
        var i :| 0 <= i < |rs[1..]| && rs[1..][i].repoId == id;
        assert rs[i + 1].repoId == id;
      }
    }
  }

  /** The ids of two batches in a row are the ids of each. */
  lemma {:induction false} IdsConcat(a: seq<Record>, b: seq<Record>)
    ensures Ids(a + b) == Ids(a) + Ids(b)
    decreases |a|
  {
    if a == [] {
      assert a + b == b;
    } else {
      assert (a + b)[1..] == a[1..] + b;
      IdsConcat(a[1..], b);
    }
  }

  /** The row a plain INSERT of `rec` writes: every supplied column as given,
      `metadata` falling back to the column default `{}` when the dict has no such
      key, and `last_crawled_at` left NULL (no key, no default). */
  function InsertedRow(rec: Record): (row: Row)
    ensures row.repoId == rec.repoId && row.fullName == rec.fullName
    ensures row.owner == rec.owner && row.name == rec.name && row.url == rec.url
    ensures row.stars == rec.stars && row.createdAt == rec.createdAt && row.repoUpdatedAt == rec.repoUpdatedAt
    ensures row.lastCrawledAt.None?
    ensures rec.metadata.Some? ==> row.metadata == rec.metadata
    ensures rec.metadata.None? ==> row.metadata == Some(EmptyObject)
  {
    Row(rec.repoId, rec.fullName, rec.owner, rec.name, rec.url, rec.stars,
        rec.createdAt, rec.repoUpdatedAt, None, Some(rec.metadata.GetOr(EmptyObject)))
  }

  /** The ON CONFLICT (repo_id) DO UPDATE policy, column by column: stars,
      repo_updated_at and url take the new values; metadata keeps the stored value
      (`{}` if it was NULL) and ignores the new one; last_crawled_at becomes now; every
      other column keeps its stored value. */
  predicate UpdatedOnConflict(stored: Row, updated: Row, rec: Record, now: Instant) {
    && updated.stars == rec.stars
    && updated.repoUpdatedAt == rec.repoUpdatedAt
    && updated.url == rec.url
    && updated.metadata == Some(stored.metadata.GetOr(EmptyObject))
    && updated.lastCrawledAt == Some(now)
    && updated.repoId == stored.repoId
    && updated.fullName == stored.fullName
    && updated.owner == stored.owner
    && updated.name == stored.name
    && updated.createdAt == stored.createdAt
  }

  /** `upsert_repo`: INSERT the record; on a repo_id conflict, update the stored row.
      An INSERT of a new repo_id whose full_name another row holds violates UNIQUE. */
  function Upsert(t: Table, rec: Record, now: Instant): (r: Result<Table, DbError>)
    ensures r.Failure? <==> rec.repoId !in t && NameTaken(t, rec.fullName)
    ensures r.Failure? ==> r.error == UniqueViolation("full_name", rec.fullName)
    ensures r.Success? ==> r.value.Keys == t.Keys + {rec.repoId}
    ensures r.Success? ==> forall k :: k in t && k != rec.repoId ==> r.value[k] == t[k]
    ensures rec.repoId in t ==>
      r.Success? && |r.value| == |t| && UpdatedOnConflict(t[rec.repoId], r.value[rec.repoId], rec, now)
    ensures rec.repoId !in t && r.Success? ==>
      |r.value| == |t| + 1 && r.value[rec.repoId] == InsertedRow(rec)
  {
    if rec.repoId in t then
      var stored := t[rec.repoId];
      var updated := stored.(
        stars := rec.stars,
        repoUpdatedAt := rec.repoUpdatedAt,
        url := rec.url,
        metadata := Some(stored.metadata.GetOr(EmptyObject)),
        lastCrawledAt := Some(now));
      assert t[rec.repoId := updated].Keys == t.Keys;
      Success(t[rec.repoId := updated])
    else if NameTaken(t, rec.fullName) then
      Failure(UniqueViolation("full_name", rec.fullName))
    else
      assert t[rec.repoId := InsertedRow(rec)].Keys == t.Keys + {rec.repoId};
      Success(t[rec.repoId := InsertedRow(rec)])
  }

  /** `bulk_upsert`: the records upserted in list order inside one transaction. The
      first failing upsert fails the whole call, and the caller keeps the table it had:
      the transaction rolls back. */
  function BulkUpsert(t: Table, rs: seq<Record>, now: Instant): (r: Result<Table, DbError>)
    ensures r.Success? ==> r.value.Keys == t.Keys + Ids(rs)
    ensures r.Success? ==> forall k :: k in t && k !in Ids(rs) ==> r.value[k] == t[k]
    decreases |rs|
  {
    if rs == [] then Success(t)
    else
      match Upsert(t, rs[0], now)
      case Failure(e) => Failure(e)
      case Success(t') =>
        BulkUpsert(t', rs[1..], now)
  }

  /** Rewriting a row under its own key, full name unchanged, keeps the constraints. */
  lemma UpdateKeepsWellFormed(t: Table, id: string, row: Row)
    requires WellFormed(t) && id in t
    requires row.repoId == id && row.fullName == t[id].fullName
    ensures WellFormed(t[id := row])
  {
    var t' := t[id := row];
    forall k1, k2 | k1 in t' && k2 in t' && SameName(t', k1, k2)
      ensures k1 == k2
    {
      assert SameName(t, k1, k2);
    }
  }

  /** Adding a row under a new key with a free full name keeps the constraints. */
  lemma InsertKeepsWellFormed(t: Table, row: Row)
    requires WellFormed(t) && row.repoId !in t && !NameTaken(t, row.fullName)
    ensures WellFormed(t[row.repoId := row])
  {
    var t' := t[row.repoId := row];
    forall k1, k2 | k1 in t' && k2 in t' && SameName(t', k1, k2)
      ensures k1 == k2
    {
      if k1 != row.repoId && k2 != row.repoId {
        assert SameName(t, k1, k2);
      }
    }
  }

  /** An upsert that succeeds keeps the table's constraints. */
  lemma UpsertKeepsWellFormed(t: Table, rec: Record, now: Instant)
    requires WellFormed(t) && Upsert(t, rec, now).Success?
    ensures WellFormed(Upsert(t, rec, now).value)
  {
    if rec.repoId in t {
      UpdateKeepsWellFormed(t, rec.repoId, Upsert(t, rec, now).value[rec.repoId]);
      assert Upsert(t, rec, now).value == t[rec.repoId := Upsert(t, rec, now).value[rec.repoId]];
    } else {
      InsertKeepsWellFormed(t, InsertedRow(rec));
    }
  }

  /** A batch that succeeds keeps the table's constraints. */
  lemma {:induction false} BulkUpsertKeepsWellFormed(t: Table, rs: seq<Record>, now: Instant)
    requires WellFormed(t) && BulkUpsert(t, rs, now).Success?
    ensures WellFormed(BulkUpsert(t, rs, now).value)
    decreases |rs|
  {
    if rs != [] {
      UpsertKeepsWellFormed(t, rs[0], now);
      BulkUpsertKeepsWellFormed(Upsert(t, rs[0], now).value, rs[1..], now);
    }
  }

  /** Upserting the same record again changes nothing but last_crawled_at, which
      becomes the new time. */
  lemma UpsertIdempotent(t: Table, rec: Record, now1: Instant, now2: Instant)
    requires Upsert(t, rec, now1).Success?
    ensures var once := Upsert(t, rec, now1).value;
      Upsert(once, rec, now2) == Success(once[rec.repoId := once[rec.repoId].(lastCrawledAt := Some(now2))])
  {
  }

  /** Whether it inserts or updates, a successful upsert leaves the record's stars,
      url and repo_updated_at in the row. */
  lemma UpsertWritesColumns(t: Table, rec: Record, now: Instant)
    requires Upsert(t, rec, now).Success?
    ensures var row := Upsert(t, rec, now).value[rec.repoId];
      row.stars == rec.stars && row.url == rec.url && row.repoUpdatedAt == rec.repoUpdatedAt
  {
  }

  /** No record after the first carries the first one's repo id. */
  lemma FirstIdNotLater(rs: seq<Record>)
    requires rs != []
    requires forall i :: 0 < i < |rs| ==> rs[i].repoId != rs[0].repoId
    ensures rs[0].repoId !in Ids(rs[1..])
  {
    IdsMembers(rs[1..], rs[0].repoId);
    forall i | 0 <= i < |rs[1..]|
      ensures rs[1..][i].repoId != rs[0].repoId
    {
      assert rs[1..][i] == rs[i + 1];
    }
  }

  /** In an applied batch, the last record carrying a repo id decides that row's
      stars, url and repo_updated_at. */
  lemma {:induction false} BulkUpsertLastWriterWins(t: Table, rs: seq<Record>, now: Instant, j: nat)
    requires BulkUpsert(t, rs, now).Success?
    requires j < |rs|
    requires forall i :: j < i < |rs| ==> rs[i].repoId != rs[j].repoId
    ensures var row := BulkUpsert(t, rs, now).value[rs[j].repoId];
      row.stars == rs[j].stars && row.url == rs[j].url && row.repoUpdatedAt == rs[j].repoUpdatedAt
    decreases |rs|
  {
    var t' := Upsert(t, rs[0], now).value;
    assert BulkUpsert(t, rs, now) == BulkUpsert(t', rs[1..], now);
    if j == 0 {
      FirstIdNotLater(rs);
      UpsertWritesColumns(t, rs[0], now);
      assert BulkUpsert(t', rs[1..], now).value[rs[0].repoId] == t'[rs[0].repoId];
    } else {
      assert rs[1..][j - 1] == rs[j];
      BulkUpsertLastWriterWins(t', rs[1..], now, j - 1);
    }
  }

  /** A record under a new repo id whose full name an existing row already holds fails
      the whole batch, wherever it sits, so long as no earlier record of the batch
      carries its id: the records before it never rename a row, so the name stays
      taken, and the id is still new when its turn comes. */
  lemma {:induction false} BulkUpsertNameClash(t: Table, rs: seq<Record>, now: Instant, j: nat)
    requires j < |rs|
    requires forall i :: 0 <= i < j ==> rs[i].repoId != rs[j].repoId
    requires rs[j].repoId !in t && NameTaken(t, rs[j].fullName)
    ensures BulkUpsert(t, rs, now).Failure?
    decreases |rs|
  {
    match Upsert(t, rs[0], now)
    case Failure(_) =>
    case Success(t') =>
      assert j > 0;
      UpsertKeepsClash(t, rs[0], now, rs[j]);
      assert rs[1..][j - 1] == rs[j];
      BulkUpsertNameClash(t', rs[1..], now, j - 1);
      assert BulkUpsert(t, rs, now) == BulkUpsert(t', rs[1..], now);
  }

  /** An upsert under another id leaves a clashing record clashing: the id stays new and
      no row is renamed. */
  lemma UpsertKeepsClash(t: Table, rec: Record, now: Instant, clash: Record)
    requires Upsert(t, rec, now).Success? && rec.repoId != clash.repoId
    requires clash.repoId !in t && NameTaken(t, clash.fullName)
    ensures clash.repoId !in Upsert(t, rec, now).value
    ensures NameTaken(Upsert(t, rec, now).value, clash.fullName)
  {
    var t' := Upsert(t, rec, now).value;
    var k :| k in t && t[k].fullName == clash.fullName;
    assert t'[k].fullName == t[k].fullName;
  }

  /** Upserting {X1, stars 5, url a, metadata {}} and then {X1, stars 9, url b,
      metadata {"note": "ignored"}} leaves stars 9, url b and metadata {}. */
  lemma MetadataKeptScenario(first: Record, second: Record)
    requires first == Record("X1", "o/r", "o", "r", Some("a"), 5, None, None, Some(EmptyObject))
    requires second == first.(stars := 9, url := Some("b"), metadata := Some(JObject(map["note" := JString("ignored")])))
    ensures var t1 := Upsert(map[], first, 1).value;
      var row := Upsert(t1, second, 2).value["X1"];
      row.stars == 9 && row.url == Some("b") && row.metadata == Some(EmptyObject) && row.lastCrawledAt == Some(2)
  {
  }

  /** The table keeps its constraints, holds exactly the original ids and those of
      the committed records, and every other row is as it was. */
  predicate StoreHolds(store0: Table, committed: seq<Record>, store: Table) {
    && WellFormed(store)
    && store.Keys == store0.Keys + Ids(committed)
    && (forall id :: id in store0 && id !in Ids(committed) ==> store[id] == store0[id])
  }

  /** A batch that stores successfully joins the committed records. */
  lemma FlushKeepsStore(store0: Table, committed: seq<Record>, store: Table, batch: seq<Record>, now: Instant)
    requires StoreHolds(store0, committed, store)
    requires BulkUpsert(store, batch, now).Success?
    ensures StoreHolds(store0, committed + batch, BulkUpsert(store, batch, now).value)
  {
    IdsConcat(committed, batch);
    BulkUpsertKeepsWellFormed(store, batch, now);
  }
}
