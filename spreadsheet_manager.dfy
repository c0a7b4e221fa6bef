/** The `SpreadsheetManager` class of src/spreadsheetManager.ts: the `posts` table
    with its composite key (post id, time category), and the `ThreadsData` sheet the
    older collection code appends to. */
module SpreadsheetManager {
  import opened Common
  import opened Text
  import opened Sheets

  /** The thirteen columns of the `posts` table, A to M. */
  const PostsHeaders := ["post_id", "content", "posted_at", "captured_at", "likes", "impressions",
                         "time_category", "replies", "reposts", "quotes", "engagement_rate",
                         "created_at", "updated_at"]

  /** The fifteen columns of the `ThreadsData` sheet. */
  const DataHeaders := ["タイムスタンプ", "投稿ID", "投稿文", "文字数", "タイプ", "投稿日時",
                        "インプレッション", "いいね", "再投稿", "引用", "リプライ",
                        "エンゲージメント総数", "エンゲージメント率", "フォロワー数", "取得時刻"]

  function HeaderRow(headers: seq<string>): (r: Row)
    ensures |r| == |headers| && forall k :: 0 <= k < |r| ==> r[k] == Str(headers[k])
  {
    if headers == [] then [] else HeaderRow(headers[..|headers| - 1]) + [Str(headers[|headers| - 1])]
  }

  // ---------------------------------------------------------------------------
  // The composite key

  /** `values[i][0] === postId && values[i][6] === timeCategory`. */
  function KeyIs(postId: string, timeCategory: real): Row -> bool {
    row => CellAt(row, 0) == Str(postId) && CellAt(row, 6) == Num(timeCategory)
  }

  /** No two data rows of the table share a (post id, time category) key. */
  ghost predicate KeysUnique(rows: seq<Row>) {
    forall a, b :: 1 <= a < b < |rows| ==>
      CellAt(rows[a], 0) != CellAt(rows[b], 0) || CellAt(rows[a], 6) != CellAt(rows[b], 6)
  }

  // ---------------------------------------------------------------------------
  // Engagement rate (lines 192-195)

  /** The rate in hundredths of a percent, rounded half up as `toFixed(2)` rounds an
      exact value. */
  function Hundredths(x: real): (n: nat)
    requires x >= 0.0
    ensures n as real / 100.0 - 0.005 <= x < n as real / 100.0 + 0.005
  {
    (x * 100.0 + 0.5).Floor
  }

  /** `x.toFixed(2)` for a non-negative `x`. */
  function FixedTwo(x: real): (r: string)
    requires x >= 0.0
    ensures |r| >= 4 && r[|r| - 3] == '.'
  {
    var n := Hundredths(x);
    NatToString(n / 100) + "." + [DigitChar(n / 10 % 10), DigitChar(n % 10)]
  }

  /** The hundredths a `toFixed(2)` text stands for: the digits before the point
      times 100 plus the two after it. */
  function FixedReading(r: string): nat
    requires |r| >= 3
  {
    DigitsValue(r[..|r| - 3]) * 100 + DigitsValue(r[|r| - 2..])
  }

  /** The text of `x.toFixed(2)` reads back as `x` rounded to hundredths, and has two
      digits after the point. */
  lemma FixedTwoReadsBack(x: real)
    requires x >= 0.0
    ensures var r := FixedTwo(x);
      FixedReading(r) == Hundredths(x) && IsDigit(r[|r| - 2]) && IsDigit(r[|r| - 1])
  {
    var n := Hundredths(x);
    var r := FixedTwo(x);
    var tail := [DigitChar(n / 10 % 10), DigitChar(n % 10)];
    assert r[..|r| - 3] == NatToString(n / 100) && r[|r| - 2..] == tail;
    NatToStringValue(n / 100);
    TwoDigitsValue(n / 10 % 10, n % 10);
    HundredthsSplit(n);
  }

  lemma TwoDigitsValue(a: nat, b: nat)
    requires a < 10 && b < 10
    ensures DigitsValue([DigitChar(a), DigitChar(b)]) == a * 10 + b
    ensures IsDigit(DigitChar(a)) && IsDigit(DigitChar(b))
  {
    var first := [DigitChar(a)];
    var both := [DigitChar(a), DigitChar(b)];
    assert both[..1] == first && first[..0] == [];
    assert DigitOf(DigitChar(a)) == a && DigitOf(DigitChar(b)) == b;
    assert DigitsValue(first) == a;
    assert DigitsValue(both) == DigitsValue(first) * 10 + DigitOf(both[1]);
  }

  lemma HundredthsSplit(n: nat)
    ensures n == n / 100 * 100 + (n / 10 % 10) * 10 + n % 10
  {
    assert n == n / 10 * 10 + n % 10;
    assert n / 10 == n / 10 / 10 * 10 + n / 10 % 10;
    assert n / 10 / 10 == n / 100;
  }

  /** The counts `upsertPostData` is given. */
  datatype PostData = PostData(
    postId: string, content: string, postedAt: Option<int>, capturedAt: int,
    likes: nat, impressions: nat, timeCategory: nat, replies: nat, reposts: nat, quotes: nat)

  function TotalEngagement(p: PostData): nat {
    p.likes + p.replies + p.reposts + p.quotes
  }

  /** Column K: the percentage of impressions that engaged, `0.00` without impressions. */
  function EngagementRate(p: PostData): (r: string)
    ensures p.impressions == 0 ==> r == "0.00"
  {
    if p.impressions > 0 then FixedTwo(TotalEngagement(p) as real / p.impressions as real * 100.0)
    else "0.00"
  }

  /** With impressions, column K reads back as the engagement percentage rounded to
      hundredths. */
  lemma EngagementRateReadsBack(p: PostData)
    requires p.impressions > 0
    ensures var rate := TotalEngagement(p) as real / p.impressions as real * 100.0;
      FixedReading(EngagementRate(p)) == Hundredths(rate) &&
      FixedReading(EngagementRate(p)) as real / 100.0 - 0.005 <= rate < FixedReading(EngagementRate(p)) as real / 100.0 + 0.005
  {
    var rate := TotalEngagement(p) as real / p.impressions as real * 100.0;
    assert rate >= 0.0;
    FixedTwoReadsBack(rate);
  }

  lemma ZeroRate()
    ensures FixedTwo(0.0) == "0.00"
  {
    assert Hundredths(0.0) == 0;
  }

  /** The row `upsertPostData` writes; `createdAt` is column L. */
  function PostRow(p: PostData, createdAt: Cell, now: int): (r: Row)
    ensures |r| == |PostsHeaders|
    ensures KeyIs(p.postId, p.timeCategory as real)(r)
  {
    [Str(p.postId), Str(p.content), DateCell(p.postedAt), Date(p.capturedAt), Num(p.likes as real),
     Num(p.impressions as real), Num(p.timeCategory as real), Num(p.replies as real), Num(p.reposts as real),
     Num(p.quotes as real), Str(EngagementRate(p)), createdAt, Date(now)]
  }

  /** The `posts` rows after `upsertPostData(p)` at time `now`: the matching row is
      overwritten, keeping its created_at, or a new row is appended. */
  function Upserted(rows: seq<Row>, p: PostData, now: int): seq<Row> {
    match FirstDataRow(rows, KeyIs(p.postId, p.timeCategory as real))
    case None => rows + [PostRow(p, Date(now), now)]
    case Some(r) => rows[r - 1 := Overwrite(rows[r - 1], 0, PostRow(p, CellAt(rows[r - 1], 11), now))]
  }

  /** An upsert keeps the key unique and leaves exactly one row with its key. */
  lemma UpsertKeepsKeysUnique(rows: seq<Row>, p: PostData, now: int)
    requires |rows| >= 1 && KeysUnique(rows)
    ensures KeysUnique(Upserted(rows, p, now))
    ensures FirstDataRow(Upserted(rows, p, now), KeyIs(p.postId, p.timeCategory as real)).Some?
  {
    var key := KeyIs(p.postId, p.timeCategory as real);
    var after := Upserted(rows, p, now);
    match FirstDataRow(rows, key)
    case None =>
      var row := PostRow(p, Date(now), now);
      assert after[|rows|] == row && key(row);
      assert forall a :: 1 <= a < |rows| ==> after[a] == rows[a] && !key(rows[a]);
      assert FirstDataRow(after, key).Some?;
    case Some(r) =>
      var row := Overwrite(rows[r - 1], 0, PostRow(p, CellAt(rows[r - 1], 11), now));
      OverwriteCells(rows[r - 1], 0, PostRow(p, CellAt(rows[r - 1], 11), now), 0);
      OverwriteCells(rows[r - 1], 0, PostRow(p, CellAt(rows[r - 1], 11), now), 6);
      assert CellAt(row, 0) == CellAt(rows[r - 1], 0) && CellAt(row, 6) == CellAt(rows[r - 1], 6);
      assert after[r - 1] == row && key(row);
      assert FirstDataRow(after, key).Some?;
  }

  // ---------------------------------------------------------------------------
  // The records of the ThreadsData sheet (lines 351-438)

  datatype Insights = Insights(
    views: nat, likes: nat, reposts: nat, quotes: nat, replies: nat, totalEngagement: nat,
    engagementRate: string)

  /** A post as the older collection code hands it over; an empty string stands for a
      missing text field, and `timestamp` is the posting time when there is one. */
  datatype ApiPost = ApiPost(
    id: string, text: string, mediaType: string, media_type: string, timestamp: Option<int>,
    insights: Option<Insights>, followerCount: nat)

  /** The fifteen cells written for one post, stamped with `timestamp`. */
  function DataRow(p: ApiPost, timestamp: int): (r: Row)
    ensures |r| == |DataHeaders|
    ensures r[0] == Date(timestamp) && r[14] == Date(timestamp)
  {
    var i := p.insights;
    [Date(timestamp), Str(p.id), Str(p.text), Num(Utf16Length(p.text) as real), Str(OrElse(p.mediaType, p.media_type)),
     (match p.timestamp case Some(t) => Date(t) case None => Blank),
     Num(if i.Some? then i.value.views as real else 0.0),
     Num(if i.Some? then i.value.likes as real else 0.0),
     Num(if i.Some? then i.value.reposts as real else 0.0),
     Num(if i.Some? then i.value.quotes as real else 0.0),
     Num(if i.Some? then i.value.replies as real else 0.0),
     Num(if i.Some? then i.value.totalEngagement as real else 0.0),
     Str(if i.Some? then OrElse(i.value.engagementRate, "0.00") else "0.00"),
     Num(p.followerCount as real), Date(timestamp)]
  }

  /** The `getRecentData` filter: the posting date (column F) is `postDate` and the
      fetch time (column A) is at most `hours` later. */
  function RecentWanted(postDate: int, hours: real, parseDate: string -> Option<int>): Row -> bool {
    row =>
      AsDate(CellAt(row, 5), parseDate) == Some(postDate) &&
      (var t := AsDate(CellAt(row, 0), parseDate);
       t.Some? && t.value <= TruncMs(postDate as real + hours * 3600000.0))
  }

  /** The sort key of `getRecentData`: the fetch time, column O. */
  function FetchTime(row: Row, parseDate: string -> Option<int>): Option<int> {
    AsDate(CellAt(row, 14), parseDate)
  }

  /** `a` sorts before `b`: the comparator is negative. An Invalid Date makes it NaN,
      which never is. */
  predicate SortsBefore(a: Option<int>, b: Option<int>) {
    a.Some? && b.Some? && a.value < b.value
  }

  /** The fifteen cells of each row that passes, as the filter keeps them. */
  function Kept(rows: seq<Row>, wanted: Row -> bool): (r: seq<Row>)
    ensures |r| <= |rows|
    ensures forall x :: x in r ==> |x| == 15
  {
    if rows == [] then [] else (if wanted(rows[0]) then [Pad(rows[0], 15)] else []) + Kept(rows[1..], wanted)
  }

  /** Inserting `x` into rows sorted by fetch time, after all rows it does not sort
      before: the stable insertion `Array.prototype.sort` agrees with when every
      fetch time is a valid date. */
  function Insert(x: Row, sorted: seq<Row>, parseDate: string -> Option<int>): (r: seq<Row>)
    ensures multiset(r) == multiset(sorted) + multiset{x}
    ensures |r| == |sorted| + 1
    ensures forall y :: y in r <==> y == x || y in sorted
  {
    if sorted == [] then [x]
    else if SortsBefore(FetchTime(x, parseDate), FetchTime(sorted[0], parseDate)) then [x] + sorted
    else
      assert sorted == [sorted[0]] + sorted[1..];
      [sorted[0]] + Insert(x, sorted[1..], parseDate)
  }

  function SortByFetchTime(rows: seq<Row>, parseDate: string -> Option<int>): (r: seq<Row>)
    ensures multiset(r) == multiset(rows)
  {
    if rows == [] then []
    else
      assert rows == rows[..|rows| - 1] + [rows[|rows| - 1]];
      Insert(rows[|rows| - 1], SortByFetchTime(rows[..|rows| - 1], parseDate), parseDate)
  }

  /** Every fetch time in `rows` is a valid date. */
  predicate AllTimed(rows: seq<Row>, parseDate: string -> Option<int>) {
    forall k :: 0 <= k < |rows| ==> FetchTime(rows[k], parseDate).Some?
  }

  /** Ascending by fetch time. */
  predicate SortedByFetchTime(rows: seq<Row>, parseDate: string -> Option<int>) {
    forall a, b :: 0 <= a < b < |rows| ==>
      FetchTime(rows[a], parseDate).Some? && FetchTime(rows[b], parseDate).Some? &&
      FetchTime(rows[a], parseDate).value <= FetchTime(rows[b], parseDate).value
  }

  lemma {:induction false} InsertSorted(x: Row, sorted: seq<Row>, parseDate: string -> Option<int>)
    requires FetchTime(x, parseDate).Some? && AllTimed(sorted, parseDate) && SortedByFetchTime(sorted, parseDate)
    ensures SortedByFetchTime(Insert(x, sorted, parseDate), parseDate)
    ensures AllTimed(Insert(x, sorted, parseDate), parseDate)
  {
    var r := Insert(x, sorted, parseDate);
    if sorted == [] {
      assert r == [x];
    } else if SortsBefore(FetchTime(x, parseDate), FetchTime(sorted[0], parseDate)) {
      assert r == [x] + sorted;
      InsertFront(x, sorted, parseDate);
    } else {
      var tail := Insert(x, sorted[1..], parseDate);
      assert r == [sorted[0]] + tail;
      InsertSorted(x, sorted[1..], parseDate);
      forall k | 0 <= k < |tail|
        ensures FetchTime(sorted[0], parseDate).value <= FetchTime(tail[k], parseDate).value
      {
        assert tail[k] in tail;
        if tail[k] != x {
          var j :| 0 <= j < |sorted[1..]| && sorted[1..][j] == tail[k];
          assert sorted[j + 1] == tail[k];
        }
      }
      KeepFront(sorted[0], tail, parseDate);
    }
  }

  lemma InsertFront(x: Row, sorted: seq<Row>, parseDate: string -> Option<int>)
    requires sorted != [] && SortsBefore(FetchTime(x, parseDate), FetchTime(sorted[0], parseDate))
    requires AllTimed(sorted, parseDate) && SortedByFetchTime(sorted, parseDate)
    ensures SortedByFetchTime([x] + sorted, parseDate) && AllTimed([x] + sorted, parseDate)
  {
    var r := [x] + sorted;
    forall a, b | 0 <= a < b < |r|
      ensures FetchTime(r[a], parseDate).Some? && FetchTime(r[b], parseDate).Some? &&
              FetchTime(r[a], parseDate).value <= FetchTime(r[b], parseDate).value
    {
      assert r[b] == sorted[b - 1];
      if a > 0 {
        assert r[a] == sorted[a - 1];
      }
    }
  }

  lemma KeepFront(y: Row, tail: seq<Row>, parseDate: string -> Option<int>)
    requires FetchTime(y, parseDate).Some? && AllTimed(tail, parseDate) && SortedByFetchTime(tail, parseDate)
    requires forall k :: 0 <= k < |tail| ==> FetchTime(y, parseDate).value <= FetchTime(tail[k], parseDate).value
    ensures SortedByFetchTime([y] + tail, parseDate) && AllTimed([y] + tail, parseDate)
  {
    var r := [y] + tail;
    forall a, b | 0 <= a < b < |r|
      ensures FetchTime(r[a], parseDate).Some? && FetchTime(r[b], parseDate).Some? &&
              FetchTime(r[a], parseDate).value <= FetchTime(r[b], parseDate).value
    {
      assert r[b] == tail[b - 1];
      if a > 0 {
        assert r[a] == tail[a - 1];
      }
    }
  }

  /** With every fetch time valid, the result is in ascending order of fetch time. */
  lemma {:induction false} SortSorts(rows: seq<Row>, parseDate: string -> Option<int>)
    requires AllTimed(rows, parseDate)
    ensures SortedByFetchTime(SortByFetchTime(rows, parseDate), parseDate)
    ensures AllTimed(SortByFetchTime(rows, parseDate), parseDate)
  {
    if rows != [] {
      SortSorts(rows[..|rows| - 1], parseDate);
      InsertSorted(rows[|rows| - 1], SortByFetchTime(rows[..|rows| - 1], parseDate), parseDate);
    }
  }

  // ---------------------------------------------------------------------------
  // The class

  class SpreadsheetManager {
    /** `SPREADSHEET_ID` as the constructor read it; empty when it is not set. */
    const spreadsheetId: string
    /** Whether `SpreadsheetApp.openById` succeeds for that id. */
    const reachable: bool
    /** The sheets of the spreadsheet, by name. */
    var sheets: map<string, Sheet>

    constructor(spreadsheetId: string, reachable: bool, sheets: map<string, Sheet>)
      ensures this.spreadsheetId == spreadsheetId && this.reachable == reachable && this.sheets == sheets
    {
      this.spreadsheetId := spreadsheetId;
      this.reachable := reachable;
      this.sheets := sheets;
    }

    /** `initializeSpreadsheet()` succeeds. */
    predicate Ready()
      reads this
    {
      spreadsheetId != "" && reachable
    }

    /** `findPostRecord(postId, timeCategory)`: the row number of the first data row
        of `posts` with that key, `None` when there is none or no table. */
    method FindPostRecord(postId: string, timeCategory: real) returns (r: Option<nat>)
      ensures !Ready() || "posts" !in sheets ==> r.None?
      ensures Ready() && "posts" in sheets ==> r == FirstDataRow(sheets["posts"].rows, KeyIs(postId, timeCategory))
    {
      if !Ready() || "posts" !in sheets {
        return None;
      }
      var sheet := sheets["posts"];
      if sheet.LastRow() <= 1 {
        return None;
      }
      r := sheet.FindDataRow(KeyIs(postId, timeCategory));
    }

    /** `upsertPostData(p)` at time `now`. */
    method UpsertPostData(p: PostData, now: int) returns (ok: bool)
      modifies if "posts" in sheets then {sheets["posts"]} else {}
      ensures ok <==> Ready() && "posts" in sheets
      ensures ok ==> sheets["posts"].rows == Upserted(old(sheets["posts"].rows), p, now)
      ensures !ok && "posts" in sheets ==> sheets["posts"].rows == old(sheets["posts"].rows)
    {
      if !Ready() || "posts" !in sheets {
        return false;
      }
      var sheet := sheets["posts"];
      var existingRow := FindPostRecord(p.postId, p.timeCategory as real);
      match existingRow {
        case None =>
          sheet.AppendRow(PostRow(p, Date(now), now));
        case Some(r) =>
          var createdAt := CellAt(sheet.rows[r - 1], 11);
          sheet.SetCells(r, 0, PostRow(p, createdAt, now));
      }
      return true;
    }

    /** `getOrCreateDataSheet()`: the `ThreadsData` sheet, created with its header row
        when it is missing. */
    method GetOrCreateDataSheet() returns (sheet: Sheet?)
      modifies this
      ensures sheets.Keys == old(sheets.Keys) + (if Ready() then {"ThreadsData"} else {})
      ensures forall n :: n in old(sheets) ==> sheets[n] == old(sheets[n])
      ensures !Ready() ==> sheet == null
      ensures Ready() ==> sheet == sheets["ThreadsData"]
      ensures Ready() && "ThreadsData" !in old(sheets) ==> fresh(sheet) && sheet.rows == [HeaderRow(DataHeaders)]
    {
      if !Ready() {
        return null;
      }
      if "ThreadsData" !in sheets {
        sheet := new Sheet([HeaderRow(DataHeaders)]);
        sheets := sheets["ThreadsData" := sheet];
      } else {
        sheet := sheets["ThreadsData"];
      }
    }

    /** `batchAppendPostData(posts)` at time `timestamp`: one row per post, all with the
        same stamp, written below the last row. */
    method BatchAppendPostData(posts: seq<ApiPost>, timestamp: int) returns (ok: bool, sheet: Sheet?)
      modifies this, if "ThreadsData" in sheets then {sheets["ThreadsData"]} else {}
      ensures ok <==> Ready()
      ensures !ok ==> sheet == null && sheets == old(sheets)
      ensures sheets.Keys == old(sheets.Keys) + (if ok then {"ThreadsData"} else {})
      ensures forall n :: n in old(sheets) ==> sheets[n] == old(sheets[n])
      ensures forall t :: t in old(sheets.Values) && t != sheet ==> t.rows == old(t.rows)
      ensures ok ==> sheet != null && "ThreadsData" in sheets && sheet == sheets["ThreadsData"]
      ensures ok && "ThreadsData" in old(sheets) ==> sheet.rows == old(sheets["ThreadsData"].rows) + DataRows(posts, timestamp)
      ensures ok && "ThreadsData" !in old(sheets) ==> sheet.rows == [HeaderRow(DataHeaders)] + DataRows(posts, timestamp)
    {
      sheet := GetOrCreateDataSheet();
      if sheet == null {
        return false, null;
      }
      var rowsData := BuildDataRows(posts, timestamp);
      if |rowsData| > 0 {
        sheet.AppendRows(rowsData);
      }
      return true, sheet;
    }

    /** `getRecentData(postDate, hours)`: the rows of `ThreadsData` posted at
        `postDate` and fetched within `hours` of it, ordered by fetch time. */
    method GetRecentData(postDate: int, hours: real, parseDate: string -> Option<int>) returns (r: seq<Row>)
      modifies this
      ensures sheets.Keys == old(sheets.Keys) + (if Ready() then {"ThreadsData"} else {})
      ensures forall n :: n in old(sheets) ==> sheets[n] == old(sheets[n])
      ensures forall t :: t in old(sheets.Values) ==> t.rows == old(t.rows)
      ensures Ready() && "ThreadsData" !in old(sheets) ==>
        fresh(sheets["ThreadsData"]) && sheets["ThreadsData"].rows == [HeaderRow(DataHeaders)]
      ensures !old(Ready()) ==> r == []
      ensures old(Ready()) && "ThreadsData" in old(sheets) ==>
        r == SortByFetchTime(Kept(if |old(sheets["ThreadsData"].rows)| <= 1 then [] else old(sheets["ThreadsData"].rows)[1..],
                                  RecentWanted(postDate, hours, parseDate)), parseDate)
      ensures old(Ready()) && "ThreadsData" !in old(sheets) ==> r == []
    {
      var sheet := GetOrCreateDataSheet();
      if sheet == null {
        return [];
      }
      if sheet.LastRow() <= 1 {
        return [];
      }
      var values := sheet.rows[1..];
      var filtered := Kept(values, RecentWanted(postDate, hours, parseDate));
      r := SortByFetchTime(filtered, parseDate);
    }

    /** `getDataStatistics()`: the number of data rows and the stamp of the last one. */
    method GetDataStatistics() returns (totalRows: nat, lastUpdate: Option<Cell>)
      modifies this
      ensures sheets.Keys == old(sheets.Keys) + (if Ready() then {"ThreadsData"} else {})
      ensures forall n :: n in old(sheets) ==> sheets[n] == old(sheets[n])
      ensures forall t :: t in old(sheets.Values) ==> t.rows == old(t.rows)
      ensures Ready() && "ThreadsData" !in old(sheets) ==>
        fresh(sheets["ThreadsData"]) && sheets["ThreadsData"].rows == [HeaderRow(DataHeaders)]
      ensures !old(Ready()) ==> totalRows == 0 && lastUpdate.None?
      ensures old(Ready()) && "ThreadsData" in old(sheets) ==>
        var rows := old(sheets["ThreadsData"].rows);
        totalRows == (if |rows| >= 1 then |rows| - 1 else 0) &&
        (lastUpdate.Some? <==> totalRows > 0) &&
        (totalRows > 0 ==> lastUpdate == Some(CellAt(rows[|rows| - 1], 0)))
      ensures old(Ready()) && "ThreadsData" !in old(sheets) ==> totalRows == 0 && lastUpdate.None?
    {
      var sheet := GetOrCreateDataSheet();
      if sheet == null {
        return 0, None;
      }
      var lastRow := sheet.LastRow();
      totalRows := if lastRow >= 1 then lastRow - 1 else 0;
      lastUpdate := None;
      if totalRows > 0 {
        lastUpdate := Some(CellAt(sheet.rows[lastRow - 1], 0));
      }
    }
  }

  /** The rows `batchAppendPostData` builds, one per post, in order. */
  function DataRows(posts: seq<ApiPost>, timestamp: int): (r: seq<Row>)
    ensures |r| == |posts|
    ensures forall k :: 0 <= k < |r| ==> r[k] == DataRow(posts[k], timestamp)
  {
    if posts == [] then [] else [DataRow(posts[0], timestamp)] + DataRows(posts[1..], timestamp)
  }

  /** The loop of `batchAppendPostData` that builds the rows before the one write. */
  method BuildDataRows(posts: seq<ApiPost>, timestamp: int) returns (rowsData: seq<Row>)
    ensures rowsData == DataRows(posts, timestamp)
  {
    rowsData := [];
    var i := 0;
    while i < |posts|
      invariant 0 <= i <= |posts|
      invariant rowsData == DataRows(posts[..i], timestamp)
    {
      DataRowsPrefix(posts, i, timestamp);
      rowsData := rowsData + [DataRow(posts[i], timestamp)];
      i := i + 1;
    }
    assert posts[..i] == posts;
  }

  /** The rows of one more post are the rows so far and that post's row. */
  lemma DataRowsPrefix(posts: seq<ApiPost>, i: nat, timestamp: int)
    requires i < |posts|
    ensures DataRows(posts[..i + 1], timestamp) == DataRows(posts[..i], timestamp) + [DataRow(posts[i], timestamp)]
  {
    var a, b := DataRows(posts[..i + 1], timestamp), DataRows(posts[..i], timestamp) + [DataRow(posts[i], timestamp)];
    assert |a| == |b|;
    forall k | 0 <= k < |a| ensures a[k] == b[k] {
      if k < i {
        assert b[k] == DataRow(posts[..i][k], timestamp);
      }
    }
  }
}
