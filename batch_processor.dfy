/** src/batchProcessor.ts: the time category of a post, the hourly metrics sweep over
    the recent posts, and the deletion of old rows of the `posts` table. */
module BatchProcessor {
  import opened Common
  import opened Text
  import opened Sheets
  import opened SpreadsheetManager

  // ---------------------------------------------------------------------------
  // Time categories

  /** The categories that are recorded once: 1, 12, 24 and 72 hours after posting. */
  predicate FixedCategory(k: nat) {
    k == 1 || k == 12 || k == 24 || k == 72
  }

  /** The hour `[k, k + 1)` in which category `k` is taken. */
  predicate InHourOf(k: nat, hours: real) {
    k as real <= hours < k as real + 1.0
  }

  /** `determineTimeCategory(hoursSincePost)`. */
  function DetermineTimeCategory(hoursSincePost: real): (c: nat)
    ensures c == 0 || FixedCategory(c)
    ensures FixedCategory(c) ==> InHourOf(c, hoursSincePost)
    ensures c == 0 ==> forall k :: FixedCategory(k) ==> !InHourOf(k, hoursSincePost)
  {
    if hoursSincePost >= 1.0 && hoursSincePost < 2.0 then 1
    else if hoursSincePost >= 12.0 && hoursSincePost < 13.0 then 12
    else if hoursSincePost >= 24.0 && hoursSincePost < 25.0 then 24
    else if hoursSincePost >= 72.0 && hoursSincePost < 73.0 then 72
    else 0
  }

  /** The category is the fixed category whose hour holds `hours` when there is one,
      and 0 otherwise; the hours e.g. before the first, between 2 and 12, or from 73
      on all give 0. */
  lemma TimeCategoryIsUnique(hours: real, k: nat)
    requires FixedCategory(k)
    ensures DetermineTimeCategory(hours) == k <==> InHourOf(k, hours)
    ensures hours < 1.0 || 2.0 <= hours < 12.0 || 13.0 <= hours < 24.0 || 25.0 <= hours < 72.0 || hours >= 73.0
      ==> DetermineTimeCategory(hours) == 0
  {
  }

  /** The hours since posting, and the category they fall in. An Invalid Date gives
      `NaN` hours, which every comparison rejects, so category 0. */
  function CategoryOf(postedAt: Option<int>, now: int): (c: nat)
    ensures postedAt.None? ==> c == 0
  {
    match postedAt
    case None => 0
    case Some(ms) => DetermineTimeCategory((now - ms) as real / 3600000.0)
  }

  // ---------------------------------------------------------------------------
  // The hourly metrics sweep

  /** A post of the user's post list: its id, text and `new Date(timestamp)`. */
  datatype ListedPost = ListedPost(id: string, text: string, postedAt: Option<int>)

  /** The counts of `convertInsightsToMetrics`. */
  datatype Metrics = Metrics(likes: nat, views: nat, replies: nat, reposts: nat, quotes: nat)

  /** The counters of the sweep. */
  datatype Tally = Tally(processed: nat, newRecords: nat, updated: nat, errors: nat)

  /** The `posts` rows and the counters while the sweep runs. */
  datatype SweepState = SweepState(rows: seq<Row>, tally: Tally)

  /** What the sweep passes to `upsertPostData`. */
  function MetricsRecord(post: ListedPost, m: Metrics, category: nat, now: int): PostData {
    PostData(post.id, post.text, post.postedAt, now, m.likes, m.views, category, m.replies, m.reposts, m.quotes)
  }

  /** One post of the sweep. `ready` is whether the manager can reach the `posts`
      table, `cutoff` is seven days before `now`, and `insights(id)` is what
      fetching and converting the post's insights yields, `None` for a failure. */
  function Visit(s: SweepState, post: ListedPost, ready: bool, now: int, cutoff: int,
                 insights: string -> Option<Metrics>): SweepState {
    if Before(post.postedAt, cutoff) then s
    else
      var category := CategoryOf(post.postedAt, now);
      var existingRow := if ready then FirstDataRow(s.rows, KeyIs(post.id, category as real)) else None;
      if category != 0 && existingRow.Some? then s
      else
        match insights(post.id)
        case None => s.(tally := s.tally.(errors := s.tally.errors + 1))
        case Some(m) =>
          if !ready then s.(tally := s.tally.(errors := s.tally.errors + 1))
          else
            SweepState(Upserted(s.rows, MetricsRecord(post, m, category, now), now),
                       if existingRow.None? then s.tally.(newRecords := s.tally.newRecords + 1, processed := s.tally.processed + 1)
                       else s.tally.(updated := s.tally.updated + 1, processed := s.tally.processed + 1))
  }

  /** The sweep over the posts `ps`, in their order. */
  function Sweep(s: SweepState, ps: seq<ListedPost>, ready: bool, now: int, cutoff: int,
                 insights: string -> Option<Metrics>): SweepState {
    if ps == [] then s
    else Visit(Sweep(s, ps[..|ps| - 1], ready, now, cutoff, insights), ps[|ps| - 1], ready, now, cutoff, insights)
  }

  /** The sweep over one more post of `ps` visits that post after the sweep so far. */
  lemma SweepPrefix(s: SweepState, ps: seq<ListedPost>, i: nat, ready: bool, now: int, cutoff: int,
                    insights: string -> Option<Metrics>)
    requires i < |ps|
    ensures Sweep(s, ps[..i + 1], ready, now, cutoff, insights)
            == Visit(Sweep(s, ps[..i], ready, now, cutoff, insights), ps[i], ready, now, cutoff, insights)
  {
    assert ps[..i + 1][..i] == ps[..i];
  }

  /** The post has a fixed category and the table already holds its record. */
  predicate AlreadyRecorded(s: SweepState, post: ListedPost, ready: bool, now: int) {
    ready && CategoryOf(post.postedAt, now) != 0
    && FirstDataRow(s.rows, KeyIs(post.id, CategoryOf(post.postedAt, now) as real)).Some?
  }

  /** A post older than seven days, a post whose fixed category is already recorded,
      and a post whose insights fail all leave the table as it is; only the last one
      counts, as an error. */
  lemma VisitSkips(s: SweepState, post: ListedPost, ready: bool, now: int, cutoff: int, insights: string -> Option<Metrics>)
    ensures Before(post.postedAt, cutoff) ==> Visit(s, post, ready, now, cutoff, insights) == s
    ensures AlreadyRecorded(s, post, ready, now) ==> Visit(s, post, ready, now, cutoff, insights) == s
    ensures !Before(post.postedAt, cutoff) && !AlreadyRecorded(s, post, ready, now) && (insights(post.id).None? || !ready) ==>
      Visit(s, post, ready, now, cutoff, insights) == s.(tally := s.tally.(errors := s.tally.errors + 1))
  {
  }

  /** Category 0 is always refreshed: a recent post in it whose insights arrive is
      upserted, whatever the table held. */
  lemma LatestAlwaysRefreshed(s: SweepState, post: ListedPost, now: int, cutoff: int, insights: string -> Option<Metrics>)
    requires !Before(post.postedAt, cutoff) && CategoryOf(post.postedAt, now) == 0 && insights(post.id).Some?
    ensures Visit(s, post, true, now, cutoff, insights).rows
      == Upserted(s.rows, MetricsRecord(post, insights(post.id).value, 0, now), now)
    ensures Visit(s, post, true, now, cutoff, insights).tally.processed == s.tally.processed + 1
  {
  }

  /** Every processed post is either new or updated; each post adds at most one to
      processed plus errors. */
  lemma {:induction false} SweepCounts(s: SweepState, ps: seq<ListedPost>, ready: bool, now: int, cutoff: int,
                                       insights: string -> Option<Metrics>)
    requires s.tally.processed == s.tally.newRecords + s.tally.updated
    ensures var t := Sweep(s, ps, ready, now, cutoff, insights).tally;
      t.processed == t.newRecords + t.updated &&
      t.processed + t.errors <= s.tally.processed + s.tally.errors + |ps| &&
      t.processed >= s.tally.processed && t.errors >= s.tally.errors
    ensures !ready ==> Sweep(s, ps, ready, now, cutoff, insights).rows == s.rows
  {
    if ps != [] {
      SweepCounts(s, ps[..|ps| - 1], ready, now, cutoff, insights);
    }
  }

  /** The sweep keeps (post_id, time_category) unique in the table. */
  lemma {:induction false} SweepKeepsKeysUnique(s: SweepState, ps: seq<ListedPost>, ready: bool, now: int, cutoff: int,
                                                insights: string -> Option<Metrics>)
    requires |s.rows| >= 1 && KeysUnique(s.rows)
    ensures |Sweep(s, ps, ready, now, cutoff, insights).rows| >= 1
    ensures KeysUnique(Sweep(s, ps, ready, now, cutoff, insights).rows)
  {
    if ps != [] {
      SweepKeepsKeysUnique(s, ps[..|ps| - 1], ready, now, cutoff, insights);
      var b := Sweep(s, ps[..|ps| - 1], ready, now, cutoff, insights);
      var post := ps[|ps| - 1];
      if !Before(post.postedAt, cutoff) && ready && insights(post.id).Some? {
        var category := CategoryOf(post.postedAt, now);
        UpsertKeepsKeysUnique(b.rows, MetricsRecord(post, insights(post.id).value, category, now), now);
      }
    }
  }

  /** What `fetchMetricsHourly` reports on success. */
  datatype SweepReport = SweepReport(message: string, totalPosts: nat, tally: Tally)

  function SweepMessage(t: Tally): string {
    "メトリクス収集完了: 処理=" + NatToString(t.processed) + "件, 新規=" + NatToString(t.newRecords) + "件, 更新="
      + NatToString(t.updated) + "件, エラー=" + NatToString(t.errors) + "件"
  }

  /** The `posts` rows the manager reaches, empty when it reaches none. */
  function PostsRows(mgr: SpreadsheetManager): seq<Row>
    reads mgr, mgr.sheets.Values
  {
    if "posts" in mgr.sheets then mgr.sheets["posts"].rows else []
  }

  /** One post of the loop of `fetchMetricsHourly`. */
  method VisitPost(mgr: SpreadsheetManager, post: ListedPost, tally: Tally, now: int, cutoff: int,
                   insights: string -> Option<Metrics>) returns (tally': Tally)
    modifies if "posts" in mgr.sheets then {mgr.sheets["posts"]} else {}
    ensures var ready := mgr.Ready() && "posts" in mgr.sheets;
      SweepState(PostsRows(mgr), tally') == Visit(SweepState(old(PostsRows(mgr)), tally), post, ready, now, cutoff, insights)
  {
    tally' := tally;
    if Before(post.postedAt, cutoff) {
      return;
    }
    var timeCategory := CategoryOf(post.postedAt, now);
    var existingRow := mgr.FindPostRecord(post.id, timeCategory as real);
    if timeCategory != 0 && existingRow.Some? {
      return;
    }
    var insightsResult := insights(post.id);
    if insightsResult.None? {
      tally' := tally.(errors := tally.errors + 1);
      return;
    }
    var upsertSuccess := mgr.UpsertPostData(MetricsRecord(post, insightsResult.value, timeCategory, now), now);
    if upsertSuccess {
      if existingRow.None? {
        tally' := tally.(newRecords := tally.newRecords + 1, processed := tally.processed + 1);
      } else {
        tally' := tally.(updated := tally.updated + 1, processed := tally.processed + 1);
      }
    } else {
      tally' := tally.(errors := tally.errors + 1);
    }
  }

  /** The loop of `fetchMetricsHourly` over the listed posts. */
  method SweepPosts(mgr: SpreadsheetManager, posts: seq<ListedPost>, now: int, cutoff: int,
                    insights: string -> Option<Metrics>) returns (tally: Tally)
    modifies if "posts" in mgr.sheets then {mgr.sheets["posts"]} else {}
    ensures var ready := mgr.Ready() && "posts" in mgr.sheets;
      SweepState(PostsRows(mgr), tally) ==
      Sweep(SweepState(old(PostsRows(mgr)), Tally(0, 0, 0, 0)), posts, ready, now, cutoff, insights)
  {
    ghost var ready := mgr.Ready() && "posts" in mgr.sheets;
    ghost var start := SweepState(PostsRows(mgr), Tally(0, 0, 0, 0));
    tally := Tally(0, 0, 0, 0);
    var i := 0;
    while i < |posts|
      invariant i <= |posts|
      invariant ready == (mgr.Ready() && "posts" in mgr.sheets)
      invariant SweepState(PostsRows(mgr), tally) == Sweep(start, posts[..i], ready, now, cutoff, insights)
    {
      SweepPrefix(start, posts, i, ready, now, cutoff, insights);
      ghost var next := Sweep(start, posts[..i + 1], ready, now, cutoff, insights);
      tally := VisitPost(mgr, posts[i], tally, now, cutoff, insights);
      assert SweepState(PostsRows(mgr), tally) == next;
      i := i + 1;
    }
    assert posts[..|posts|] == posts;
  }

  /** `fetchMetricsHourly()`. `listed` is what `fetchUserPostsWithRetry` returns,
      `mgr` the manager, `now` the time of the run, and `insights` the insights of
      each post. */
  method FetchMetricsHourly(apiKey: string, listed: Result<seq<ListedPost>>, mgr: SpreadsheetManager,
                            now: int, insights: string -> Option<Metrics>) returns (r: Result<SweepReport>)
    modifies if "posts" in mgr.sheets then {mgr.sheets["posts"]} else {}
    ensures apiKey == "" ==> r == Err("Threads APIキーが設定されていません") && PostsRows(mgr) == old(PostsRows(mgr))
    ensures apiKey != "" && listed.Err? ==> r == Err("投稿一覧取得失敗: " + listed.message) && PostsRows(mgr) == old(PostsRows(mgr))
    ensures apiKey != "" && listed.Ok? ==>
      var n := Sweep(SweepState(old(PostsRows(mgr)), Tally(0, 0, 0, 0)), listed.value, mgr.Ready() && "posts" in mgr.sheets,
                     now, now - 7 * 24 * 60 * 60 * 1000, insights);
      PostsRows(mgr) == n.rows && r == Ok(SweepReport(SweepMessage(n.tally), |listed.value|, n.tally))
  {
    if apiKey == "" {
      return Err("Threads APIキーが設定されていません");
    }
    if listed.Err? {
      return Err("投稿一覧取得失敗: " + listed.message);
    }
    var posts := listed.value;
    var tally := SweepPosts(mgr, posts, now, now - 7 * 24 * 60 * 60 * 1000, insights);
    r := Ok(SweepReport(SweepMessage(tally), |posts|, tally));
  }

  // ---------------------------------------------------------------------------
  // Deleting old posts

  /** A `posts` row whose posted_at (column C) is before the cut-off. */
  function OldPost(cutoff: int, parseDate: string -> Option<int>): Row -> bool {
    row => Before(AsDate(CellAt(row, 2), parseDate), cutoff)
  }

  /** `deleteOldPosts()`; `openError` is the error `openById` throws for the ID
      (`None` when it opens the spreadsheet), `cutoff` is seven days before now. */
  method DeleteOldPosts(spreadsheetId: string, openError: Option<string>, sheet: Sheet?, cutoff: int,
                        parseDate: string -> Option<int>)
      returns (r: Result<(string, nat)>)
    modifies sheet
    ensures spreadsheetId == "" ==> r == Err("スプレッドシートIDが設定されていません")
    ensures spreadsheetId != "" && openError.Some? ==> r == Err("削除エラー: " + openError.value)
    ensures spreadsheetId != "" && openError.None? && sheet == null ==> r == Err("postsシートが見つかりません")
    ensures r.Err? && sheet != null ==> sheet.rows == old(sheet.rows)
    ensures r.Ok? ==> spreadsheetId != "" && openError.None? && sheet != null
    ensures r.Ok? && |old(sheet.rows)| <= 1 ==> r.value == ("データが存在しません", 0) && sheet.rows == old(sheet.rows)
    ensures r.Ok? && |old(sheet.rows)| > 1 ==>
      sheet.rows == DataRowsKept(old(sheet.rows), OldPost(cutoff, parseDate)) &&
      r.value.1 == DoomedCount(old(sheet.rows)[1..], OldPost(cutoff, parseDate)) &&
      r.value.0 == NatToString(r.value.1) + "件の古いデータを削除しました"
  {
    if spreadsheetId == "" {
      return Err("スプレッドシートIDが設定されていません");
    }
    if openError.Some? {
      return Err("削除エラー: " + openError.value);
    }
    if sheet == null {
      return Err("postsシートが見つかりません");
    }
    if sheet.LastRow() <= 1 {
      return Ok(("データが存在しません", 0));
    }
    var deletedCount := sheet.DeleteDataRowsWhere(OldPost(cutoff, parseDate));
    r := Ok((NatToString(deletedCount) + "件の古いデータを削除しました", deletedCount));
  }

  /** After the deletion the header is kept, exactly the rows posted at or after the
      cut-off (or without a valid date) remain, and the count is the rows gone. */
  lemma DeleteOldPostsFacts(rows: seq<Row>, cutoff: int, parseDate: string -> Option<int>)
    requires |rows| > 1
    ensures var kept := DataRowsKept(rows, OldPost(cutoff, parseDate));
      kept[0] == rows[0] &&
      |kept| + DoomedCount(rows[1..], OldPost(cutoff, parseDate)) == |rows| &&
      forall row :: row in kept[1..] <==> row in rows[1..] && !Before(AsDate(CellAt(row, 2), parseDate), cutoff)
  {
    DataRowsKeptFacts(rows, OldPost(cutoff, parseDate));
  }
}
