/** Repository nodes of a search page and the database-ready records built from them
    (`repo_node_to_dict`). */
module Records {
  import opened Outcomes
  import opened Time
  import Text

  /** A JSON value, as held by the `metadata` JSONB column. */
  datatype Json =
    | JNull
    | JBool(b: bool)
    | JNumber(n: int)
    | JString(s: string)
    | JArray(items: seq<Json>)
    | JObject(fields: map<string, Json>)

  /** `{}` */
  const EmptyObject: Json := JObject(map[])

  datatype Owner = Owner(login: string)

  /** One `... on Repository` node of a search page. The optional fields are the ones
      the mapper reads with `node.get`; `stargazerCount` is None when the key is absent. */
  datatype RepoNode = RepoNode(
    id: string,
    name: string,
    owner: Owner,
    url: Option<string>,
    stargazerCount: Option<int>,
    createdAt: Option<Instant>,
    updatedAt: Option<Instant>)

  /** The dict handed to the store: one entry per column of `repos` except
      `last_crawled_at`. `metadata` is None when the dict has no such key. */
  datatype Record = Record(
    repoId: string,
    fullName: string,
    owner: string,
    name: string,
    url: Option<string>,
    stars: int,
    createdAt: Option<Instant>,
    repoUpdatedAt: Option<Instant>,
    metadata: Option<Json>)

  /** `f"{owner}/{name}"` */
  function FullName(owner: string, name: string): string {
    owner + "/" + name
  }

  /** A full name whose owner has no '/' splits back at its first '/'. */
  lemma FullNameSplits(owner: string, name: string)
    ensures '/' !in owner ==> Text.SplitAt(FullName(owner, name), '/') == Some((owner, name))
  {
    if '/' !in owner {
      Text.SplitJoin(owner, '/', name);
    }
  }

  /** `repo_node_to_dict`. A GitHub login never contains '/', so the full name splits
      back into the owner and the repository name. */
  function RepoNodeToRecord(n: RepoNode): (r: Record)
    ensures r.repoId == n.id
    ensures r.owner == n.owner.login && r.name == n.name
    ensures '/' !in n.owner.login ==> Text.SplitAt(r.fullName, '/') == Some((n.owner.login, n.name))
    ensures n.stargazerCount.None? ==> r.stars == 0
    ensures n.stargazerCount.Some? ==> r.stars == n.stargazerCount.value
    ensures r.url == n.url && r.createdAt == n.createdAt && r.repoUpdatedAt == n.updatedAt
    ensures r.metadata == Some(EmptyObject)
  {
    FullNameSplits(n.owner.login, n.name);
    Record(
      repoId := n.id,
      fullName := FullName(n.owner.login, n.name),
      owner := n.owner.login,
      name := n.name,
      url := n.url,
      stars := n.stargazerCount.GetOr(0),
      createdAt := n.createdAt,
      repoUpdatedAt := n.updatedAt,
      metadata := Some(EmptyObject))
  }

  /** The records of a sequence of nodes, one per node. */
  function RecordsOf(nodes: seq<RepoNode>): (rs: seq<Record>)
    ensures |rs| == |nodes|
    decreases |nodes|
  {
    if nodes == [] then [] else [RepoNodeToRecord(nodes[0])] + RecordsOf(nodes[1..])
  }

  /** Each record is the mapping of the node at the same position. */
  lemma {:induction false} RecordsOfElements(nodes: seq<RepoNode>)
    ensures forall i :: 0 <= i < |nodes| ==> RecordsOf(nodes)[i] == RepoNodeToRecord(nodes[i])
    decreases |nodes|
  {
    if nodes != [] {
      RecordsOfElements(nodes[1..]);
      forall i | 0 <= i < |nodes|
        ensures RecordsOf(nodes)[i] == RepoNodeToRecord(nodes[i])
      {
        if i > 0 {
          assert RecordsOf(nodes)[i] == RecordsOf(nodes[1..])[i - 1];
        }
      }
    }
  }

  /** Mapping distributes over concatenation. */
  lemma {:induction false} RecordsOfConcat(a: seq<RepoNode>, b: seq<RepoNode>)
    ensures RecordsOf(a + b) == RecordsOf(a) + RecordsOf(b)
    decreases |a|
  {
    if a == [] {
      assert a + b == b;
    } else {
      assert (a + b)[0] == a[0];
      assert (a + b)[1..] == a[1..] + b;
      RecordsOfConcat(a[1..], b);
    }
  }
}
