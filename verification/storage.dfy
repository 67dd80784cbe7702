/** utils/storage.py: the list operations over the saved batches and the
    first-match lookups over clients, outlets and history items. The
    batches file is the `batches` field of a `BatchStore`; loading it is
    reading the field, and saving it is writing the field and counting the
    write in `saves`. Identifiers and timestamps from the clock are parameters. */
module Storage {
  import opened Optional
  import GoogleSheets

  /** The first element that satisfies `p`, if any. */
  function FirstWhere<T>(xs: seq<T>, p: T -> bool): Option<T>
  {
    if xs == [] then None
    else if p(xs[0]) then Some(xs[0])
    else FirstWhere(xs[1..], p)
  }

  /** `FirstWhere` finds nothing exactly when nothing matches, and otherwise
      the element at a matching position that no earlier match precedes. */
  lemma {:induction false} FirstWhereIsFirst<T>(xs: seq<T>, p: T -> bool)
    ensures FirstWhere(xs, p).None? <==> forall k | 0 <= k < |xs| :: !p(xs[k])
    ensures FirstWhere(xs, p).Some? ==>
      exists k | 0 <= k < |xs| :: xs[k] == FirstWhere(xs, p).value && p(xs[k]) && forall j | 0 <= j < k :: !p(xs[j])
  {
    if xs != [] && !p(xs[0]) {
      FirstWhereIsFirst(xs[1..], p);
      assert forall k | 1 <= k < |xs| :: xs[k] == xs[1..][k - 1];
      if FirstWhere(xs, p).Some? {
        var k :| 0 <= k < |xs[1..]| && xs[1..][k] == FirstWhere(xs, p).value && p(xs[1..][k]) &&
          forall j | 0 <= j < k :: !p(xs[1..][j]);
        assert xs[k + 1] == FirstWhere(xs, p).value;
      }
    }
  }

  /** The loop of the `get_*_by_id` functions: return the first match. */
  method FindFirst<T>(xs: seq<T>, p: T -> bool) returns (found: Option<T>)
    ensures found == FirstWhere(xs, p)
  {
    for i := 0 to |xs|
      invariant FirstWhere(xs, p) == FirstWhere(xs[i..], p)
    {
      assert xs[i..][1..] == xs[i + 1..];
      if p(xs[i]) {
        return Some(xs[i]);
      }
    }
    return None;
  }

  /** `get_client_by_id(client_id)` over the clients read from the sheet. */
  method GetClientById(clients: seq<GoogleSheets.Client>, clientId: string) returns (found: Option<GoogleSheets.Client>)
    ensures found.None? <==> forall k | 0 <= k < |clients| :: clients[k].id != clientId
    ensures found.Some? ==> exists k | 0 <= k < |clients| ::
      clients[k] == found.value && clients[k].id == clientId && forall j | 0 <= j < k :: clients[j].id != clientId
  {
    found := FindFirst(clients, (c: GoogleSheets.Client) => c.id == clientId);
    FirstWhereIsFirst(clients, (c: GoogleSheets.Client) => c.id == clientId);
  }

  /** `get_outlet_by_id(outlet_id)` over the outlets read from the sheet. */
  method GetOutletById(outlets: seq<GoogleSheets.Outlet>, outletId: string) returns (found: Option<GoogleSheets.Outlet>)
    ensures found.None? <==> forall k | 0 <= k < |outlets| :: outlets[k].id != outletId
    ensures found.Some? ==> exists k | 0 <= k < |outlets| ::
      outlets[k] == found.value && outlets[k].id == outletId && forall j | 0 <= j < k :: outlets[j].id != outletId
  {
    found := FindFirst(outlets, (o: GoogleSheets.Outlet) => o.id == outletId);
    FirstWhereIsFirst(outlets, (o: GoogleSheets.Outlet) => o.id == outletId);
  }

  /** `get_history_item(item_id)` over the history read from the sheet. */
  method GetHistoryItem(history: seq<GoogleSheets.HistoryItem>, itemId: string) returns (found: Option<GoogleSheets.HistoryItem>)
    ensures found.None? <==> forall k | 0 <= k < |history| :: history[k].id != itemId
    ensures found.Some? ==> exists k | 0 <= k < |history| ::
      history[k] == found.value && history[k].id == itemId && forall j | 0 <= j < k :: history[j].id != itemId
  {
    found := FindFirst(history, (h: GoogleSheets.HistoryItem) => h.id == itemId);
    FirstWhereIsFirst(history, (h: GoogleSheets.HistoryItem) => h.id == itemId);
  }

  /** One analysed article of a batch, as far as the batch statistics look
      at it: its `status` and `total_score` (absent or None as `None`), and
      its other fields. */
  datatype Article = Article(status: Option<string>, totalScore: Option<real>, fields: map<string, string>)

  /** One batch summary of the batches file. */
  datatype Batch = Batch(
    batchId: Option<string>,
    batchName: string,
    createdAt: Option<string>,
    client: string,
    articleCount: int,
    successfulCount: int,
    failedCount: int,
    skippedCount: int,
    avgScore: real,
    articles: Option<seq<Article>>)

  predicate HasId(b: Batch, batchId: string)
  {
    b.batchId == Some(batchId)
  }

  /** The batches without those carrying the id, in their order. */
  function Without(batches: seq<Batch>, batchId: string): (r: seq<Batch>)
    ensures |r| <= |batches|
  {
    if batches == [] then []
    else if HasId(batches[0], batchId) then Without(batches[1..], batchId)
    else [batches[0]] + Without(batches[1..], batchId)
  }

  /** No batch with the id is left, and every other batch is kept. */
  lemma {:induction false} WithoutRemovesOnlyId(batches: seq<Batch>, batchId: string)
    ensures forall b | b in Without(batches, batchId) :: !HasId(b, batchId) && b in batches
    ensures forall b | b in batches && !HasId(b, batchId) :: b in Without(batches, batchId)
  {
    if batches != [] {
      WithoutRemovesOnlyId(batches[1..], batchId);
    }
  }

  /** Removing the batches with an id shortens the list exactly when one has it. */
  lemma {:induction false} WithoutShrinks(batches: seq<Batch>, batchId: string)
    ensures |Without(batches, batchId)| < |batches| <==> exists k | 0 <= k < |batches| :: HasId(batches[k], batchId)
    ensures |Without(batches, batchId)| == |batches| ==> Without(batches, batchId) == batches
  {
    if batches != [] {
      WithoutShrinks(batches[1..], batchId);
      assert forall k | 1 <= k < |batches| :: batches[k] == batches[1..][k - 1];
      if !HasId(batches[0], batchId) && |Without(batches, batchId)| == |batches| {
        assert Without(batches, batchId) == [batches[0]] + batches[1..];
      }
    }
  }

  /** How many articles have the given status. */
  function CountStatus(articles: seq<Article>, status: string): (n: nat)
    ensures n <= |articles|
  {
    if articles == [] then 0
    else CountStatus(articles[..|articles| - 1], status) + (if articles[|articles| - 1].status == Some(status) then 1 else 0)
  }

  /** The total scores that are present, in order. */
  function Scores(articles: seq<Article>): (r: seq<real>)
    ensures |r| <= |articles|
  {
    if articles == [] then []
    else
      var last := articles[|articles| - 1];
      Scores(articles[..|articles| - 1]) + (if last.totalScore.Some? then [last.totalScore.value] else [])
  }

  function Sum(xs: seq<real>): real
  {
    if xs == [] then 0.0 else Sum(xs[..|xs| - 1]) + xs[|xs| - 1]
  }

  /** `sum(scores) / len(scores) if scores else 0`, before rounding. */
  function Mean(xs: seq<real>): real
  {
    if xs == [] then 0.0 else Sum(xs) / (|xs| as real)
  }

  /** A sum of values within bounds lies within the bounds times the count. */
  lemma {:induction false} SumBounds(xs: seq<real>, lo: real, hi: real)
    requires forall k | 0 <= k < |xs| :: lo <= xs[k] <= hi
    ensures (|xs| as real) * lo <= Sum(xs) <= (|xs| as real) * hi
    decreases |xs|
  {
    if xs != [] {
      SumBounds(xs[..|xs| - 1], lo, hi);
    }
  }

  /** The mean of values within bounds lies within the bounds. */
  lemma MeanBounds(xs: seq<real>, lo: real, hi: real)
    requires xs != []
    requires forall k | 0 <= k < |xs| :: lo <= xs[k] <= hi
    ensures lo <= Mean(xs) <= hi
  {
    SumBounds(xs, lo, hi);
    var n := |xs| as real;
    assert Mean(xs) * n == Sum(xs);
  }

  /** Every present score of the articles is one of their total scores. */
  lemma {:induction false} ScoresFromArticles(articles: seq<Article>)
    ensures forall x | x in Scores(articles) :: exists k | 0 <= k < |articles| :: articles[k].totalScore == Some(x)
    decreases |articles|
  {
    if articles != [] {
      var init := articles[..|articles| - 1];
      ScoresFromArticles(init);
      assert forall k | 0 <= k < |init| :: init[k] == articles[k];
    }
  }

  /** The batch after article `index` is replaced and its statistics recomputed. */
  function Recounted(b: Batch, index: nat, article: Article): Batch
    requires b.articles.Some? && index < |b.articles.value|
  {
    var articles := b.articles.value[index := article];
    b.(articles := Some(articles),
       successfulCount := CountStatus(articles, "success"),
       failedCount := CountStatus(articles, "failed"),
       avgScore := Mean(Scores(articles)))
  }

  /** Whether `update_batch_article` can update this batch. */
  predicate Updatable(b: Batch, batchId: string, index: int)
  {
    HasId(b, batchId) && b.articles.Some? && 0 <= index < |b.articles.value|
  }

  /** The position of the first batch that can be updated. */
  function FirstUpdatable(batches: seq<Batch>, batchId: string, index: int): (k: Option<nat>)
    ensures k.Some? ==> k.value < |batches| && Updatable(batches[k.value], batchId, index)
    ensures k.Some? ==> forall j | 0 <= j < k.value :: !Updatable(batches[j], batchId, index)
    ensures k.None? <==> forall j | 0 <= j < |batches| :: !Updatable(batches[j], batchId, index)
  {
    if batches == [] then None
    else if Updatable(batches[0], batchId, index) then Some(0)
    else match FirstUpdatable(batches[1..], batchId, index)
      case None => None
      case Some(k) => Some(k + 1)
  }

  /** Replacing one article moves each status count by at most the two
      articles involved. */
  lemma {:induction false} CountStatusReplace(articles: seq<Article>, i: nat, a: Article, status: string)
    requires i < |articles|
    ensures CountStatus(articles[i := a], status) ==
      CountStatus(articles, status) - (if articles[i].status == Some(status) then 1 else 0) + (if a.status == Some(status) then 1 else 0)
    decreases |articles|
  {
    var n := |articles|;
    if i < n - 1 {
      CountStatusReplace(articles[..n - 1], i, a, status);
      assert articles[i := a][..n - 1] == articles[..n - 1][i := a];
    } else {
      assert articles[i := a][..n - 1] == articles[..n - 1];
    }
  }

  /** Two different statuses are never counted for the same article. */
  lemma {:induction false} StatusCountsDisjoint(articles: seq<Article>)
    ensures CountStatus(articles, "success") + CountStatus(articles, "failed") <= |articles|
    decreases |articles|
  {
    if articles != [] {
      StatusCountsDisjoint(articles[..|articles| - 1]);
    }
  }

  /** The statistics after an update: the article count is kept, the two
      counts never exceed it, and the average lies within the bounds that
      hold for all the batch's scores. */
  lemma RecountedBounds(b: Batch, index: nat, article: Article, lo: real, hi: real)
    requires b.articles.Some? && index < |b.articles.value|
    requires forall k | 0 <= k < |b.articles.value| :: b.articles.value[k].totalScore.Some? ==> lo <= b.articles.value[k].totalScore.value <= hi
    requires article.totalScore.Some? ==> lo <= article.totalScore.value <= hi
    requires lo <= 0.0 <= hi
    ensures var r := Recounted(b, index, article);
      |r.articles.value| == |b.articles.value| && r.articles.value[index] == article &&
      (forall k | 0 <= k < |b.articles.value| && k != index :: r.articles.value[k] == b.articles.value[k]) &&
      r.successfulCount + r.failedCount <= |r.articles.value| &&
      lo <= r.avgScore <= hi
  {
    var articles := b.articles.value[index := article];
    StatusCountsDisjoint(articles);
    var scores := Scores(articles);
    ScoresFromArticles(articles);
    if scores != [] {
      forall k | 0 <= k < |scores|
        ensures lo <= scores[k] <= hi
      {
        assert scores[k] in scores;
      }
      MeanBounds(scores, lo, hi);
    }
  }

  /** `sorted(...)` on strings: Python compares by code point, and a proper
      prefix comes first. */
  predicate LessEq(a: string, b: string)
  {
    a == [] || (b != [] && (a[0] < b[0] || (a[0] == b[0] && LessEq(a[1..], b[1..]))))
  }

  lemma {:induction false} LessEqTotal(a: string, b: string)
    ensures LessEq(a, b) || LessEq(b, a)
  {
    if a != [] && b != [] && a[0] == b[0] {
      LessEqTotal(a[1..], b[1..]);
    }
  }

  lemma {:induction false} LessEqTransitive(a: string, b: string, c: string)
    requires LessEq(a, b) && LessEq(b, c)
    ensures LessEq(a, c)
  {
    if a != [] && b != [] && c != [] && a[0] == b[0] && b[0] == c[0] {
      LessEqTransitive(a[1..], b[1..], c[1..]);
    }
  }

  predicate Sorted(xs: seq<string>)
  {
    forall i, j | 0 <= i < j < |xs| :: LessEq(xs[i], xs[j])
  }

  /** `x` placed before the first element it does not exceed. */
  function Insert(x: string, xs: seq<string>): (r: seq<string>)
    ensures multiset(r) == multiset(xs) + multiset{x}
  {
    if xs == [] then [x]
    else if LessEq(x, xs[0]) then [x] + xs
    else
      assert xs == [xs[0]] + xs[1..];
      [xs[0]] + Insert(x, xs[1..])
  }

  /** Insertion keeps a list sorted. */
  lemma {:induction false} InsertSorted(x: string, xs: seq<string>)
    requires Sorted(xs)
    ensures Sorted(Insert(x, xs))
  {
    if xs != [] {
      if LessEq(x, xs[0]) {
        forall j | 1 <= j < |xs| + 1
          ensures LessEq(x, ([x] + xs)[j])
        {
          if j > 1 {
            LessEqTransitive(x, xs[0], xs[j - 1]);
          }
        }
      } else {
        LessEqTotal(x, xs[0]);
        var rest := Insert(x, xs[1..]);
        InsertSorted(x, xs[1..]);
        forall j | 0 <= j < |rest|
          ensures LessEq(xs[0], rest[j])
        {
          assert rest[j] in multiset(rest);
          if rest[j] != x {
            assert rest[j] in multiset(xs[1..]);
            var m :| 0 <= m < |xs[1..]| && xs[1..][m] == rest[j];
            assert xs[m + 1] == rest[j];
          }
        }
      }
    }
  }

  /** `sorted(names)`. */
  function Sort(xs: seq<string>): (r: seq<string>)
    ensures multiset(r) == multiset(xs)
  {
    if xs == [] then []
    else
      assert xs == [xs[0]] + xs[1..];
      Insert(xs[0], Sort(xs[1..]))
  }

  lemma {:induction false} SortSorted(xs: seq<string>)
    ensures Sorted(Sort(xs))
  {
    if xs != [] {
      SortSorted(xs[1..]);
      InsertSorted(xs[0], Sort(xs[1..]));
    }
  }

  /** The non-empty batch names, in the batches' order. */
  function BatchNames(batches: seq<Batch>): (names: seq<string>)
    ensures forall k | 0 <= k < |names| :: names[k] != []
  {
    if batches == [] then []
    else (if batches[0].batchName != [] then [batches[0].batchName] else []) + BatchNames(batches[1..])
  }

  /** The batches file and how often it has been written. */
  class BatchStore {
    var batches: seq<Batch>
    var saves: nat

    constructor (batches: seq<Batch>)
      ensures this.batches == batches && saves == 0
    {
      this.batches := batches;
      saves := 0;
    }

    /** `add_batch(batch)`: the id and creation time come from the clock. */
    method AddBatch(batch: Batch, stampId: string, isoNow: string) returns (batchId: string)
      modifies this
      ensures batchId == stampId
      ensures batches == [batch.(batchId := Some(stampId), createdAt := Some(isoNow))] + old(batches)
      ensures saves == old(saves) + 1
    {
      var all := batches;
      batchId := stampId;
      var stamped := batch.(batchId := Some(batchId), createdAt := Some(isoNow));
      all := [stamped] + all;
      batches := all;
      saves := saves + 1;
    }

    /** `get_batch_by_id(batch_id)`. */
    method GetBatchById(batchId: string) returns (found: Option<Batch>)
      ensures found == FirstWhere(batches, (b: Batch) => HasId(b, batchId))
    {
      found := FindFirst(batches, (b: Batch) => HasId(b, batchId));
    }

    /** `delete_batch(batch_id)`: saves, and reports success, only when a batch went. */
    method DeleteBatch(batchId: string) returns (deleted: bool)
      modifies this
      ensures deleted <==> exists k | 0 <= k < |old(batches)| :: HasId(old(batches)[k], batchId)
      ensures batches == Without(old(batches), batchId)
      ensures forall b | b in batches :: !HasId(b, batchId) && b in old(batches)
      ensures forall b | b in old(batches) && !HasId(b, batchId) :: b in batches
      ensures saves == old(saves) + (if deleted then 1 else 0)
    {
      var all := batches;
      var initialLen := |all|;
      all := Without(all, batchId);
      WithoutShrinks(batches, batchId);
      WithoutRemovesOnlyId(batches, batchId);
      if |all| < initialLen {
        batches := all;
        saves := saves + 1;
        return true;
      }
      return false;
    }

    /** `get_unique_batch_names()`: the non-empty names, sorted, repeats kept. */
    function UniqueBatchNames(): seq<string>
      reads this
    {
      Sort(BatchNames(batches))
    }

    /** `update_batch_article(batch_id, article_index, updated_article)`. */
    method UpdateBatchArticle(batchId: string, index: int, article: Article) returns (updated: bool)
      modifies this
      ensures updated <==> FirstUpdatable(old(batches), batchId, index).Some?
      ensures !updated ==> batches == old(batches) && saves == old(saves)
      ensures updated ==> var k := FirstUpdatable(old(batches), batchId, index).value;
        batches == old(batches)[k := Recounted(old(batches)[k], index, article)] && saves == old(saves) + 1
    {
      var all := batches;
      for i := 0 to |all|
        invariant all == batches
        invariant forall j | 0 <= j < i :: !Updatable(all[j], batchId, index)
      {
        var b := all[i];
        if HasId(b, batchId) {
          if b.articles.Some? && 0 <= index < |b.articles.value| {
            all := all[i := Recounted(b, index, article)];
            assert FirstUpdatable(batches, batchId, index) == Some(i) by {
              FirstUpdatableAt(batches, batchId, index, i);
            }
            batches := all;
            saves := saves + 1;
            return true;
          }
        }
      }
      return false;
    }
  }

  /** A batch that can be updated with none before it is the first. */
  lemma {:induction false} FirstUpdatableAt(batches: seq<Batch>, batchId: string, index: int, i: nat)
    requires i < |batches| && Updatable(batches[i], batchId, index)
    requires forall j | 0 <= j < i :: !Updatable(batches[j], batchId, index)
    ensures FirstUpdatable(batches, batchId, index) == Some(i)
  {
    if i > 0 {
      FirstUpdatableAt(batches[1..], batchId, index, i - 1);
    }
  }

  /** The names come out sorted, and they are exactly the non-empty batch
      names, each as often as it occurs. */
  lemma UniqueBatchNamesSorted(store: BatchStore)
    ensures Sorted(store.UniqueBatchNames())
    ensures multiset(store.UniqueBatchNames()) == multiset(BatchNames(store.batches))
  {
    SortSorted(BatchNames(store.batches));
  }
}
