/** The cluster review screen: groups of near-duplicate posts found by a similarity
    scan, edited by deleting and adding posts and finally fused into one article,
    with a terminal log that narrates the scan. */
module Clusters {
  import opened Seqs
  import opened JsText
  import Endpoints

  /** A post inside a cluster, with the four fields the screen keeps. */
  datatype ClusterPost = ClusterPost(id: string, title: string, source: string, content: string)

  /** One terminal line and its colour class; the wall-clock time is not modelled. */
  datatype LogEntry = LogEntry(message: string, kind: string)

  // ------------------------------------------------------------------
  // Cluster editing
  // ------------------------------------------------------------------

  /** The number of posts over all clusters. */
  function TotalPosts(clusters: seq<seq<ClusterPost>>): nat {
    if clusters == [] then 0 else |clusters[0]| + TotalPosts(clusters[1..])
  }

  lemma {:induction false} TotalPostsConcat(a: seq<seq<ClusterPost>>, b: seq<seq<ClusterPost>>)
    ensures TotalPosts(a + b) == TotalPosts(a) + TotalPosts(b)
    decreases |a|
  {
    if a == [] {
      assert a + b == b;
    } else {
      assert (a + b)[1..] == a[1..] + b;
      TotalPostsConcat(a[1..], b);
    }
  }

  /** Replacing one cluster changes the total by the difference in its size. */
  lemma {:induction false} TotalPostsUpdate(clusters: seq<seq<ClusterPost>>, i: int, c: seq<ClusterPost>)
    requires 0 <= i < |clusters|
    ensures TotalPosts(clusters[i := c]) == TotalPosts(clusters) - |clusters[i]| + |c|
    decreases |clusters|
  {
    if i == 0 {
      assert clusters[i := c][1..] == clusters[1..];
    } else {
      assert clusters[i := c][1..] == clusters[1..][i - 1 := c];
      TotalPostsUpdate(clusters[1..], i - 1, c);
    }
  }

  /** Dropping one cluster removes exactly its posts from the total. */
  lemma TotalPostsRemoveAt(clusters: seq<seq<ClusterPost>>, i: int)
    requires 0 <= i < |clusters|
    ensures TotalPosts(RemoveAt(clusters, i)) == TotalPosts(clusters) - |clusters[i]|
  {
    assert clusters == clusters[..i] + [clusters[i]] + clusters[i + 1..];
    TotalPostsConcat(clusters[..i] + [clusters[i]], clusters[i + 1..]);
    TotalPostsConcat(clusters[..i], [clusters[i]]);
    TotalPostsConcat(clusters[..i], clusters[i + 1..]);
    assert TotalPosts([clusters[i]]) == |clusters[i]| by {
      assert [clusters[i]][1..] == [];
    }
  }

  /** `handleDeleteItem`: the post at `postIndex` leaves cluster `clusterIndex`, and a
      cluster left empty is dropped; the other clusters keep their contents and order. */
  function WithoutPost(clusters: seq<seq<ClusterPost>>, clusterIndex: int, postIndex: nat): (r: seq<seq<ClusterPost>>)
    requires 0 <= clusterIndex < |clusters|
    ensures var left := RemoveAt(clusters[clusterIndex], postIndex);
      (left == [] ==> |r| == |clusters| - 1 && forall k :: clusterIndex <= k < |r| ==> r[k] == clusters[k + 1])
      && (left != [] ==> |r| == |clusters| && r[clusterIndex] == left
                         && forall k :: clusterIndex < k < |r| ==> r[k] == clusters[k])
    ensures forall k :: 0 <= k < clusterIndex ==> r[k] == clusters[k]
  {
    var left := RemoveAt(clusters[clusterIndex], postIndex);
    if left == [] then RemoveAt(clusters, clusterIndex) else clusters[clusterIndex := left]
  }

  /** No cluster on screen is empty. */
  predicate NoEmptyCluster(clusters: seq<seq<ClusterPost>>) {
    forall k :: 0 <= k < |clusters| ==> clusters[k] != []
  }

  /** Deleting an existing post removes exactly one post overall, and deleting never
      leaves an empty cluster behind. */
  lemma WithoutPostCounts(clusters: seq<seq<ClusterPost>>, clusterIndex: int, postIndex: nat)
    requires 0 <= clusterIndex < |clusters|
    ensures postIndex < |clusters[clusterIndex]| ==>
      TotalPosts(WithoutPost(clusters, clusterIndex, postIndex)) == TotalPosts(clusters) - 1
    ensures NoEmptyCluster(clusters) ==> NoEmptyCluster(WithoutPost(clusters, clusterIndex, postIndex))
  {
    var left := RemoveAt(clusters[clusterIndex], postIndex);
    if postIndex < |clusters[clusterIndex]| {
      if left == [] {
        TotalPostsRemoveAt(clusters, clusterIndex);
      } else {
        TotalPostsUpdate(clusters, clusterIndex, left);
      }
    }
  }

  /** `cluster.some(p => p._id === id)`. */
  predicate HasId(cluster: seq<ClusterPost>, id: string) {
    exists k :: 0 <= k < |cluster| && cluster[k].id == id
  }

  /** No two posts of a cluster share an `_id`. */
  predicate UniqueIds(cluster: seq<ClusterPost>) {
    forall i, j :: 0 <= i < j < |cluster| ==> cluster[i].id != cluster[j].id
  }

  /** `handleAddPostToCluster` on the active cluster: a post whose `_id` is already
      there changes nothing, any other is appended at the end. */
  function WithPost(cluster: seq<ClusterPost>, post: ClusterPost): (r: seq<ClusterPost>)
    ensures HasId(cluster, post.id) ==> r == cluster
    ensures !HasId(cluster, post.id) ==> r == cluster + [post]
  {
    if HasId(cluster, post.id) then cluster else cluster + [post]
  }

  /** After adding, the post's `_id` is in the cluster, ids stay unique, and adding
      the same post again changes nothing. */
  lemma WithPostProperties(cluster: seq<ClusterPost>, post: ClusterPost)
    ensures HasId(WithPost(cluster, post), post.id)
    ensures UniqueIds(cluster) ==> UniqueIds(WithPost(cluster, post))
    ensures WithPost(WithPost(cluster, post), post) == WithPost(cluster, post)
  {
    var r := WithPost(cluster, post);
    if !HasId(cluster, post.id) {
      assert r[|cluster|] == post;
    }
  }

  /** The fuse button is disabled while that cluster is being fused or when it has
      fewer than two posts. */
  predicate FuseDisabled(fusingId: Option<int>, clusterIndex: int, cluster: seq<ClusterPost>) {
    fusingId == Some(clusterIndex) || |cluster| < 2
  }

  /** `handleFuse`'s own guard: a cluster needs at least two posts to be fused. */
  predicate FuseGuardPasses(cluster: seq<ClusterPost>) {
    |cluster| >= 2
  }

  /** `handleFuse` up to the request: the posts sent to the fuse endpoint, or nothing
      when the guard refuses or the dialog is declined. */
  function FuseRequest(cluster: seq<ClusterPost>, confirmed: bool): (sent: Option<seq<ClusterPost>>)
    ensures sent.Some? <==> |cluster| >= 2 && confirmed
    ensures sent.Some? ==> sent.value == cluster
  {
    if !FuseGuardPasses(cluster) then None
    else if !confirmed then None
    else Some(cluster)
  }

  // ------------------------------------------------------------------
  // Scan narration
  // ------------------------------------------------------------------

  const Initializing := LogEntry("\U{1F680} Initializing Vector Space Scanner...", "info")
  const FetchingCandidates := LogEntry("\U{1F4E1} Fetching recent article candidates...", "dim")
  const Generating := LogEntry("\U{1F9EE} Generating Embeddings (text-embedding-004)...", "info")
  const EmbeddingsDone := LogEntry("\U{2705} Embeddings generation complete.", "success")
  const Analyzing := LogEntry("\U{1F50D} Analyzing Cosine Similarity (Threshold: 0.82)...", "info")
  const ClosingTerminal := LogEntry("\U{1F4CA} Closing terminal to show results...", "dim")
  const NoDuplicates := LogEntry("\U{26A0}\U{FE0F} No significant duplicates found.", "warning")

  const DetectedPrefix := "\U{2728} SUCCESS: Detected "
  const DetectedSuffix := " related content groups."

  /** How the scan request ended: a reply with its `ok` flag, its `clusters` and its
      `message` (each possibly absent), or an exception with its message. */
  datatype ScanOutcome =
    | ScanReplied(ok: bool, found: Option<seq<seq<ClusterPost>>>, message: Option<string>)
    | ScanThrew(error: string)
  {
    predicate Succeeded() {
      ScanReplied? && ok
    }

    /** `data.clusters || []`. */
    function Found(): seq<seq<ClusterPost>>
      requires ScanReplied?
    {
      found.GetOr([])
    }
  }

  /** `${x}` of a string that may be `undefined`. */
  function MaybeText(s: Option<string>): string {
    s.GetOr("undefined")
  }

  /** The lines a finished scan adds to the terminal. */
  function ScanEndLogs(outcome: ScanOutcome): (logs: seq<LogEntry>)
    ensures !outcome.Succeeded() ==> |logs| == 1 && logs[0].kind == "error"
    ensures outcome.Succeeded() ==> |logs| == (if |outcome.Found()| > 0 then 4 else 3)
    ensures outcome.Succeeded() ==> logs[0] == EmbeddingsDone && logs[1] == Analyzing
    ensures outcome.Succeeded() && |outcome.Found()| == 0 ==> logs[2] == NoDuplicates
    ensures outcome.Succeeded() && |outcome.Found()| > 0 ==> logs[2].kind == "success" && logs[3] == ClosingTerminal
  {
    match outcome
    case ScanReplied(ok, _, message) =>
      if !ok then [LogEntry("\U{274C} Server Error: " + MaybeText(message), "error")]
      else
        var n := |outcome.Found()|;
        [EmbeddingsDone, Analyzing]
          + if n > 0 then [LogEntry(DetectedPrefix + NatToString(n) + DetectedSuffix, "success"), ClosingTerminal]
            else [NoDuplicates]
    case ScanThrew(error) =>
      [LogEntry("\U{274C} Network Error: " + error, "error")]
  }

  /** The success line reports the number of clusters found: the digits between its
      fixed prefix and suffix read back as that number. */
  lemma DetectedCountIsClusterCount(outcome: ScanOutcome)
    requires outcome.Succeeded() && |outcome.Found()| > 0
    ensures exists digits :: ScanEndLogs(outcome)[2].message == DetectedPrefix + digits + DetectedSuffix
                             && (forall i :: 0 <= i < |digits| ==> IsDigit(digits[i]))
                             && ParseDigits(digits) == |outcome.Found()|
  {
    var digits := NatToString(|outcome.Found()|);
    ParseNatToString(|outcome.Found()|);
    assert ScanEndLogs(outcome)[2].message == DetectedPrefix + digits + DetectedSuffix;
  }

  /** A search request is issued only for a query of at least three UTF-16 code units;
      it looks the query up among the original posts. */
  function SearchRequest(query: string): (url: Option<string>)
    ensures url.Some? <==> Utf16Length(query) >= 3
    ensures url.Some? ==> url.value == Endpoints.OriginalPosts + "?keyword=" + query
  {
    if Utf16Length(query) < 3 then None else Some(Endpoints.OriginalPosts + "?keyword=" + query)
  }

  /** A query of at most one character is never sent and one of three or more
      characters always is; for text without astral characters the threshold is
      exactly three characters. */
  lemma SearchThreshold(query: string)
    ensures |query| <= 1 ==> SearchRequest(query).None?
    ensures |query| >= 3 ==> SearchRequest(query).Some?
    ensures (forall i :: 0 <= i < |query| ==> query[i] as int <= 0xFFFF) ==>
      (SearchRequest(query).Some? <==> |query| >= 3)
  {
    if forall i :: 0 <= i < |query| ==> query[i] as int <= 0xFFFF {
      Utf16LengthOfBmp(query);
    }
  }

  // ------------------------------------------------------------------
  // The screen's state
  // ------------------------------------------------------------------

  class ClusteredPosts {
    var clusters: seq<seq<ClusterPost>>
    var showTerminal: bool
    var terminalLogs: seq<LogEntry>
    var isScanning: bool
    var fusingId: Option<int>
    var isAddModalOpen: bool
    var activeClusterIndex: Option<int>
    var searchQuery: string
    var searchResults: seq<ClusterPost>

    constructor()
      ensures clusters == [] && !showTerminal && terminalLogs == [] && !isScanning && fusingId.None?
      ensures !isAddModalOpen && activeClusterIndex.None? && searchQuery == "" && searchResults == []
    {
      clusters := [];
      showTerminal := false;
      terminalLogs := [];
      isScanning := false;
      fusingId := None;
      isAddModalOpen := false;
      activeClusterIndex := None;
      searchQuery := "";
      searchResults := [];
    }

    /** `addLog(message, type)`: one entry at the end, of kind "info" unless given. */
    method AddLog(message: string, kind: Option<string>)
      modifies this`terminalLogs
      ensures terminalLogs == old(terminalLogs) + [LogEntry(message, kind.GetOr("info"))]
    {
      terminalLogs := terminalLogs + [LogEntry(message, kind.GetOr("info"))];
    }

    /** `handleScan` up to its first wait: terminal shown, scanning on, log and
        clusters emptied, then the two opening lines. */
    method BeginScan()
      modifies this`showTerminal, this`isScanning, this`terminalLogs, this`clusters
      ensures showTerminal && isScanning && clusters == []
      ensures terminalLogs == [Initializing, FetchingCandidates]
    {
      showTerminal := true;
      isScanning := true;
      terminalLogs := [];
      clusters := [];
      AddLog(Initializing.message, Some(Initializing.kind));
      AddLog(FetchingCandidates.message, Some(FetchingCandidates.kind));
    }

    /** After the first wait, before the request. */
    method StartEmbedding()
      modifies this`terminalLogs
      ensures terminalLogs == old(terminalLogs) + [Generating]
    {
      AddLog(Generating.message, Some(Generating.kind));
    }

    /** The rest of `handleScan`: the outcome's lines are logged, a successful reply
        replaces the clusters, and scanning always ends. */
    method FinishScan(outcome: ScanOutcome)
      modifies this`terminalLogs, this`clusters, this`isScanning
      ensures terminalLogs == old(terminalLogs) + ScanEndLogs(outcome)
      ensures clusters == (if outcome.Succeeded() then outcome.Found() else old(clusters))
      ensures !isScanning
    {
      match outcome {
        case ScanReplied(ok, _, message) =>
          if ok {
            AddLog(EmbeddingsDone.message, Some(EmbeddingsDone.kind));
            AddLog(Analyzing.message, Some(Analyzing.kind));
            var foundClusters := outcome.Found();
            clusters := foundClusters;
            if |foundClusters| > 0 {
              AddLog(DetectedPrefix + NatToString(|foundClusters|) + DetectedSuffix, Some("success"));
              AddLog(ClosingTerminal.message, Some(ClosingTerminal.kind));
            } else {
              AddLog(NoDuplicates.message, Some(NoDuplicates.kind));
            }
          } else {
            AddLog("\U{274C} Server Error: " + MaybeText(message), Some("error"));
          }
        case ScanThrew(error) =>
          AddLog("\U{274C} Network Error: " + error, Some("error"));
      }
      isScanning := false;
    }

    /** The delayed hiding of the terminal after a finished scan. */
    method CloseTerminal()
      modifies this`showTerminal
      ensures !showTerminal
    {
      showTerminal := false;
    }

    /** `handleDeleteItem(clusterIndex, postIndex)`. */
    method DeleteItem(clusterIndex: int, postIndex: nat)
      requires 0 <= clusterIndex < |clusters|
      modifies this`clusters
      ensures clusters == WithoutPost(old(clusters), clusterIndex, postIndex)
    {
      var newClusters := clusters;
      newClusters := newClusters[clusterIndex := RemoveAt(newClusters[clusterIndex], postIndex)];
      if |newClusters[clusterIndex]| == 0 {
        newClusters := RemoveAt(newClusters, clusterIndex);
      }
      clusters := newClusters;
    }

    /** `handleOpenAddModal(index)`. */
    method OpenAddModal(index: int)
      modifies this`activeClusterIndex, this`searchQuery, this`searchResults, this`isAddModalOpen
      ensures activeClusterIndex == Some(index) && searchQuery == "" && searchResults == [] && isAddModalOpen
    {
      activeClusterIndex := Some(index);
      searchQuery := "";
      searchResults := [];
      isAddModalOpen := true;
    }

    /** `handleSearchPosts` up to the request: the query is always stored; `request`
        is the search address, or nothing for a short query. */
    method SearchPosts(query: string) returns (request: Option<string>)
      modifies this`searchQuery
      ensures searchQuery == query
      ensures request == SearchRequest(query)
    {
      searchQuery := query;
      if Utf16Length(query) < 3 {
        return None;
      }
      request := Some(Endpoints.OriginalPosts + "?keyword=" + query);
    }

    /** The search reply: `data.posts || []`. A failed search changes nothing. */
    method ReceiveSearchResults(posts: Option<seq<ClusterPost>>)
      modifies this`searchResults
      ensures searchResults == posts.GetOr([])
    {
      searchResults := posts.GetOr([]);
    }

    /** `handleAddPostToCluster(post)`: `added` is false when the active cluster
        already holds that `_id`; otherwise the post is appended and the modal closes. */
    method AddPostToCluster(post: ClusterPost) returns (added: bool)
      requires activeClusterIndex.Some? && 0 <= activeClusterIndex.value < |clusters|
      modifies this`clusters, this`isAddModalOpen
      ensures var i := activeClusterIndex.value;
        added == !HasId(old(clusters)[i], post.id)
        && clusters == old(clusters)[i := WithPost(old(clusters)[i], post)]
        && isAddModalOpen == (old(isAddModalOpen) && !added)
    {
      var i := activeClusterIndex.value;
      var newClusters := clusters;
      if HasId(newClusters[i], post.id) {
        return false;
      }
      newClusters := newClusters[i := newClusters[i] + [post]];
      clusters := newClusters;
      isAddModalOpen := false;
      added := true;
    }

    /** `handleFuse` up to the request: a cluster of fewer than two posts, or a
        declined confirmation, sends nothing and changes nothing; otherwise the
        cluster is marked as fusing and its posts are sent. */
    method BeginFuse(clusterIndex: int, confirmed: bool) returns (sent: Option<seq<ClusterPost>>)
      requires 0 <= clusterIndex < |clusters|
      modifies this`fusingId
      ensures sent == FuseRequest(clusters[clusterIndex], confirmed)
      ensures sent.Some? ==> fusingId == Some(clusterIndex) && FuseDisabled(fusingId, clusterIndex, clusters[clusterIndex])
      ensures sent.None? ==> fusingId == old(fusingId)
    {
      var clusterPosts := clusters[clusterIndex];
      if !FuseGuardPasses(clusterPosts) {
        return None;
      }
      if !confirmed {
        return None;
      }
      fusingId := Some(clusterIndex);
      sent := Some(clusterPosts);
    }

    /** `handleFuse` after the request: a successful fuse removes the cluster at
        `clusterIndex` and keeps the others in order; fusing always ends. */
    method FinishFuse(clusterIndex: int, fused: bool)
      modifies this`clusters, this`fusingId
      ensures clusters == (if fused then RemoveAt(old(clusters), clusterIndex) else old(clusters))
      ensures fusingId.None?
    {
      if fused {
        ExceptPositionIsRemoveAt(clusters, clusterIndex, 0);
        clusters := ExceptPosition(clusters, clusterIndex, 0);
      }
      fusingId := None;
    }
  }

  /** The guard inside `handleFuse` and the disabled state of its button agree: a
      click on an enabled button always passes the guard and, once confirmed, sends
      the cluster; a cluster the guard refuses has its button disabled; and the only
      other reason for a disabled button is that this cluster is being fused, which
      the handler itself does not check. */
  lemma FuseGuardMatchesButton(fusingId: Option<int>, clusterIndex: int, cluster: seq<ClusterPost>, confirmed: bool)
    ensures !FuseDisabled(fusingId, clusterIndex, cluster) ==>
      FuseGuardPasses(cluster) && (confirmed ==> FuseRequest(cluster, confirmed) == Some(cluster))
    ensures !FuseGuardPasses(cluster) ==>
      FuseDisabled(fusingId, clusterIndex, cluster) && FuseRequest(cluster, confirmed).None?
    ensures FuseDisabled(fusingId, clusterIndex, cluster) && FuseGuardPasses(cluster) ==>
      fusingId == Some(clusterIndex) && (confirmed ==> FuseRequest(cluster, confirmed).Some?)
  {
  }
}
