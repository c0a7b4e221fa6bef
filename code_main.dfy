/** The server-side functions of src/Code.ts (and their older copies in
    src_backup/Code.ts) that keep the settings and the `posts` and
    `post_metrics_hourly` sheets: saving the API key and the spreadsheet ID, the row
    look-ups, the metrics clean-up, the post master update, the migration from the
    `ThreadsData` sheet, and the batch trigger status. */
module CodeMain {
  import opened Common
  import opened Text
  import opened Sheets
  import opened GasUtils

  // ---------------------------------------------------------------------------
  // API key and spreadsheet ID

  const ApiKeyProperty := "THREADS_API_KEY"
  const SpreadsheetIdProperty := "SPREADSHEET_ID"

  /** `getApiKey()`: the stored key, or empty when it is missing or the service
      throws. */
  function GetApiKey(props: ScriptProperties): string
    reads props
  {
    props.GetPropertySafely(ApiKeyProperty, "")
  }

  /** `saveApiKey(apiKey)`: an empty or all-blank key is refused; otherwise the
      trimmed key is stored, which fails only when the property service throws. */
  method SaveApiKey(props: ScriptProperties, apiKey: string) returns (success: bool, message: string)
    modifies props
    ensures props.failing == old(props.failing)
    ensures Trim(Js, apiKey) == "" ==> !success && message == "APIキーが空です" && props.values == old(props.values)
    ensures Trim(Js, apiKey) != "" ==> success == !props.failing
    ensures success ==> message == "APIキーを保存しました" && props.values == old(props.values)[ApiKeyProperty := Trim(Js, apiKey)]
    ensures Trim(Js, apiKey) != "" && !success ==> message == "APIキーの保存に失敗しました" && props.values == old(props.values)
  {
    if apiKey == "" || Trim(Js, apiKey) == "" {
      return false, "APIキーが空です";
    }
    success := props.SetPropertySafely(ApiKeyProperty, Trim(Js, apiKey));
    message := if success then "APIキーを保存しました" else "APIキーの保存に失敗しました";
  }

  /** After a successful save the key reads back trimmed and present, and saving what
      was read back stores the same key again. */
  lemma ApiKeyReadBack(props: ScriptProperties, apiKey: string)
    requires !props.failing && Trim(Js, apiKey) != ""
    requires ApiKeyProperty in props.values && props.values[ApiKeyProperty] == Trim(Js, apiKey)
    ensures GetApiKey(props) == Trim(Js, apiKey) != ""
    ensures Trim(Js, GetApiKey(props)) == GetApiKey(props)
  {
    TrimIdempotent(Js, apiKey);
  }

  /** A character of `[a-zA-Z0-9_-]`. */
  predicate IsIdChar(c: char) {
    IsLetter(c) || IsDigit(c) || c == '_' || c == '-'
  }

  /** `/^[a-zA-Z0-9_-]+$/.test(s)`, scanned from position `i`. */
  function IdCharsFrom(s: string, i: nat): (r: bool)
    requires i <= |s|
    ensures r <==> forall k :: i <= k < |s| ==> IsIdChar(s[k])
    decreases |s| - i
  {
    i == |s| || (IsIdChar(s[i]) && IdCharsFrom(s, i + 1))
  }

  /** The shape `saveSpreadsheetId` accepts: at least 20 characters, all of
      `[a-zA-Z0-9_-]`. Every such character is one UTF-16 unit, so `length` is the
      character count. */
  predicate WellFormedSpreadsheetId(id: string) {
    |id| >= 20 && IdCharsFrom(id, 0)
  }

  /** `saveSpreadsheetId(spreadsheetId)`: refused when blank or badly formed,
      otherwise stored trimmed. */
  method SaveSpreadsheetId(props: ScriptProperties, spreadsheetId: string) returns (success: bool, message: string)
    modifies props
    ensures props.failing == old(props.failing)
    ensures success <==> WellFormedSpreadsheetId(Trim(Js, spreadsheetId)) && !props.failing
    ensures props.values == if success then old(props.values)[SpreadsheetIdProperty := Trim(Js, spreadsheetId)] else old(props.values)
    ensures message == if Trim(Js, spreadsheetId) == "" then "スプレッドシートIDが空です"
      else if !WellFormedSpreadsheetId(Trim(Js, spreadsheetId)) then "無効なスプレッドシートIDです"
      else if success then "スプレッドシートIDを保存しました"
      else "スプレッドシートIDの保存に失敗しました"
  {
    if spreadsheetId == "" || Trim(Js, spreadsheetId) == "" {
      return false, "スプレッドシートIDが空です";
    }
    var trimmedId := Trim(Js, spreadsheetId);
    if |trimmedId| < 20 || !IdCharsFrom(trimmedId, 0) {
      return false, "無効なスプレッドシートIDです";
    }
    success := props.SetPropertySafely(SpreadsheetIdProperty, trimmedId);
    message := if success then "スプレッドシートIDを保存しました" else "スプレッドシートIDの保存に失敗しました";
  }

  /** A well-formed ID has no blank at either end, so the ID is stored exactly as
      given and is accepted again when saved a second time. */
  lemma WellFormedIdIsTrimmed(id: string)
    requires WellFormedSpreadsheetId(id)
    ensures Trim(Js, id) == id
    ensures WellFormedSpreadsheetId(Trim(Js, id))
  {
    assert IsIdChar(id[0]) && IsIdChar(id[|id| - 1]);
    assert TrimStart(Js, id) == id;
  }

  /** An ID is accepted exactly when, once trimmed, it is 20 characters or more of
      `[a-zA-Z0-9_-]`: a shorter one, or one with any other character inside, is
      refused. */
  lemma SpreadsheetIdAcceptance(spreadsheetId: string)
    ensures WellFormedSpreadsheetId(Trim(Js, spreadsheetId)) <==>
      |Trim(Js, spreadsheetId)| >= 20 && forall c :: c in Trim(Js, spreadsheetId) ==> IsIdChar(c)
  {
    var t := Trim(Js, spreadsheetId);
    assert (forall k :: 0 <= k < |t| ==> IsIdChar(t[k])) <==> (forall c :: c in t ==> IsIdChar(c));
  }

  // ---------------------------------------------------------------------------
  // Row look-ups and the metrics clean-up

  /** A row whose column A holds the text `postId` (`===` never matches a number). */
  function PostIdIs(postId: string): Row -> bool {
    row => CellAt(row, 0) == Str(postId)
  }

  /** `findPostRow(sheet, postId)`: the row number of the first data row whose
      column A is `postId`; the header is never matched. */
  method FindPostRow(sheet: Sheet, postId: string) returns (r: Option<nat>)
    ensures r == FirstDataRow(sheet.rows, PostIdIs(postId))
    ensures r.Some? ==> 2 <= r.value <= |sheet.rows| && CellAt(sheet.rows[r.value - 1], 0) == Str(postId)
    ensures r.Some? ==> forall k :: 1 <= k < r.value - 1 ==> CellAt(sheet.rows[k], 0) != Str(postId)
    ensures r.None? ==> forall k :: 1 <= k < |sheet.rows| ==> CellAt(sheet.rows[k], 0) != Str(postId)
  {
    r := sheet.FindDataRow(PostIdIs(postId));
  }

  /** A metrics row of the post `postId` captured at `capturedAt`; an Invalid Date
      on either side never matches. */
  function MetricKeyIs(postId: string, capturedAt: Option<int>, parseDate: string -> Option<int>): Row -> bool {
    row => CellAt(row, 0) == Str(postId) && capturedAt.Some? && AsDate(CellAt(row, 1), parseDate) == capturedAt
  }

  /** `findMetricRow(sheet, postId, capturedAt)`. */
  method FindMetricRow(sheet: Sheet, postId: string, capturedAt: Option<int>, parseDate: string -> Option<int>)
      returns (r: Option<nat>)
    ensures r == FirstDataRow(sheet.rows, MetricKeyIs(postId, capturedAt, parseDate))
    ensures r.Some? ==> capturedAt.Some? && AsDate(CellAt(sheet.rows[r.value - 1], 1), parseDate) == capturedAt
    ensures capturedAt.None? ==> r.None?
  {
    r := sheet.FindDataRow(MetricKeyIs(postId, capturedAt, parseDate));
  }

  /** A metrics row captured before the cut-off. */
  function OldMetric(cutoff: int, parseDate: string -> Option<int>): Row -> bool {
    row => Before(AsDate(CellAt(row, 1), parseDate), cutoff)
  }

  /** `deleteOldMetrics(sheet, retentionDays)`; `cutoff` is the moment
      `retentionDays` days before now. Rows are visited from the last up to the
      first data row. */
  method DeleteOldMetrics(sheet: Sheet, cutoff: int, parseDate: string -> Option<int>)
    modifies sheet
    ensures sheet.rows == DataRowsKept(old(sheet.rows), OldMetric(cutoff, parseDate))
  {
    var _ := sheet.DeleteDataRowsWhere(OldMetric(cutoff, parseDate));
  }

  /** After the clean-up every data row left was captured at or after the cut-off
      (or has no valid date), and every such row of the old sheet is still there. */
  lemma DeleteOldMetricsFacts(rows: seq<Row>, cutoff: int, parseDate: string -> Option<int>)
    requires rows != []
    ensures var kept := DataRowsKept(rows, OldMetric(cutoff, parseDate));
      kept[0] == rows[0] &&
      forall r :: r in kept[1..] <==> r in rows[1..] && !Before(AsDate(CellAt(r, 1), parseDate), cutoff)
  {
    DataRowsKeptFacts(rows, OldMetric(cutoff, parseDate));
  }

  // ---------------------------------------------------------------------------
  // Hashtags

  /** A character of `[\w぀-ゟ゠-ヿ一-鿿]`. */
  predicate IsTagChar(c: char) {
    IsWord(Js, c) || (0x3040 <= c as int <= 0x309F) || (0x30A0 <= c as int <= 0x30FF) || (0x4E00 <= c as int <= 0x9FFF)
  }

  /** The end of the run of tag characters starting at `j`. */
  function TagEnd(s: string, j: nat): (e: nat)
    requires j <= |s|
    ensures j <= e <= |s| && (e == |s| || !IsTagChar(s[e]))
    ensures forall k :: j <= k < e ==> IsTagChar(s[k])
    decreases |s| - j
  {
    if j < |s| && IsTagChar(s[j]) then TagEnd(s, j + 1) else j
  }

  /** The matches of `/#[…]+/g` in `s[i..]`, left to right, each as long as it
      can be. */
  function Hashtags(s: string, i: nat): (r: seq<string>)
    requires i <= |s|
    ensures forall t :: t in r ==> |t| >= 2 && t[0] == '#' && forall k :: 1 <= k < |t| ==> IsTagChar(t[k])
    decreases |s| - i
  {
    if i == |s| then []
    else if s[i] == '#' && i + 1 < |s| && IsTagChar(s[i + 1]) then
      var e := TagEnd(s, i + 1);
      [s[i..e]] + Hashtags(s, e)
    else Hashtags(s, i + 1)
  }

  /** `list.join(',')`. */
  function JoinCommas(list: seq<string>): string {
    if list == [] then "" else if |list| == 1 then list[0] else list[0] + "," + JoinCommas(list[1..])
  }

  /** `extractHashtags(text)`. */
  function ExtractHashtags(text: string): string {
    JoinCommas(Hashtags(text, 0))
  }

  /** Every hashtag found starts at a `#` of the text and is followed there by its
      tag characters; a text without `#` has none. */
  lemma {:induction false} HashtagsOfText(s: string, i: nat)
    requires i <= |s|
    ensures forall t :: t in Hashtags(s, i) ==> exists k :: i <= k && At(s, k, t)
    ensures (forall k :: i <= k < |s| ==> s[k] != '#') ==> Hashtags(s, i) == []
    decreases |s| - i
  {
    if i < |s| {
      if s[i] == '#' && i + 1 < |s| && IsTagChar(s[i + 1]) {
        var e := TagEnd(s, i + 1);
        HashtagsOfText(s, e);
        assert At(s, i, s[i..e]);
      } else {
        HashtagsOfText(s, i + 1);
      }
    }
  }

  /** Tags hold no comma, so the joined text splits back into the tags. */
  lemma {:induction false} JoinedTagsSplitBack(list: seq<string>)
    requires forall t :: t in list ==> t != "" && ',' !in t
    ensures list != [] ==> CommaCount(JoinCommas(list)) == |list| - 1
    ensures list == [] <==> JoinCommas(list) == ""
  {
    if |list| > 1 {
      assert forall t :: t in list[1..] ==> t in list;
      assert list[0] in list;
      CommaCountNone(list[0]);
      JoinedTagsSplitBack(list[1..]);
      var rest := JoinCommas(list[1..]);
      assert JoinCommas(list) == list[0] + ("," + rest);
      CommaCountConcat(list[0], "," + rest);
      CommaCountConcat(",", rest);
      assert CommaCount(",") == 1 by {
        assert ","[1..] == [];
      }
    } else if |list| == 1 {
      assert list[0] in list;
      CommaCountNone(list[0]);
    }
  }

  /** `extractHashtags` gives the empty text for a text without `#`, and otherwise
      the tags found, one between each two commas. */
  lemma ExtractHashtagsFacts(text: string)
    ensures (forall k :: 0 <= k < |text| ==> text[k] != '#') ==> ExtractHashtags(text) == ""
    ensures ExtractHashtags(text) == "" <==> Hashtags(text, 0) == []
    ensures Hashtags(text, 0) != [] ==> CommaCount(ExtractHashtags(text)) == |Hashtags(text, 0)| - 1
  {
    HashtagsOfText(text, 0);
    var tags := Hashtags(text, 0);
    forall t | t in tags
      ensures t != "" && ',' !in t
    {
      assert !IsTagChar(',');
      forall k | 0 <= k < |t|
        ensures t[k] != ','
      {
        if k > 0 {
          assert IsTagChar(t[k]);
        }
      }
    }
    JoinedTagsSplitBack(tags);
  }

  /** How many commas `s` holds. */
  function CommaCount(s: string): nat {
    if s == [] then 0 else (if s[0] == ',' then 1 else 0) + CommaCount(s[1..])
  }

  lemma {:induction false} CommaCountConcat(a: string, b: string)
    ensures CommaCount(a + b) == CommaCount(a) + CommaCount(b)
  {
    if a != [] {
      assert (a + b)[1..] == a[1..] + b;
      CommaCountConcat(a[1..], b);
    } else {
      assert a + b == b;
    }
  }

  lemma {:induction false} CommaCountNone(a: string)
    requires ',' !in a
    ensures CommaCount(a) == 0
  {
    if a != [] {
      assert forall c :: c in a[1..] ==> c in a;
      CommaCountNone(a[1..]);
    }
  }

  // ---------------------------------------------------------------------------
  // The post master update

  /** The `timestamp` of a post from the API: absent, an ISO 8601 text or a Unix time
      in seconds. */
  datatype PostTime = NoTime | TimeText(text: string) | TimeNumber(seconds: real)

  /** A post of `fetchUserPostsWithRetry`; an absent text field is empty. */
  datatype ThreadsPost = ThreadsPost(id: string, username: string, timestamp: PostTime, text: string,
                                     permalink: string, mediaType: string)

  /** The filter of `addOrUpdatePosts`: a post with a (truthy) timestamp at or after
      `cutoffSeconds`; a text that is not a date, or the number 0, is out. */
  predicate InWindow(p: ThreadsPost, cutoffSeconds: int, parseDate: string -> Option<int>) {
    match p.timestamp
    case NoTime => false
    case TimeText(s) => s != "" && parseDate(s).Some? && parseDate(s).value / 1000 >= cutoffSeconds
    case TimeNumber(n) => n != 0.0 && n >= cutoffSeconds as real
  }

  /** The posts of the last seven days, in their order. */
  function Recent(posts: seq<ThreadsPost>, cutoffSeconds: int, parseDate: string -> Option<int>): (r: seq<ThreadsPost>)
    ensures |r| <= |posts|
    ensures forall p :: p in r <==> p in posts && InWindow(p, cutoffSeconds, parseDate)
  {
    if posts == [] then []
    else
      var rest := Recent(posts[1..], cutoffSeconds, parseDate);
      if InWindow(posts[0], cutoffSeconds, parseDate) then [posts[0]] + rest else rest
  }

  function PostedAtCell(t: PostTime): Cell {
    match t
    case NoTime => Blank
    case TimeText(s) => Str(s)
    case TimeNumber(n) => Num(n)
  }

  /** The eleven cells `addOrUpdatePosts` appends for a new post (columns A to K). */
  function PostMasterRow(p: ThreadsPost, now: int): Row {
    [Str(p.id), Str("threads"), Str(OrElse(p.username, "unknown")), PostedAtCell(p.timestamp), Str(p.text),
     Str(p.permalink), Num(Utf16Length(p.text) as real), Str(OrElse(p.mediaType, "TEXT")), Str(ExtractHashtags(p.text)),
     Date(now), Date(now)]
  }

  /** The row numbers whose `updated_at` the posts `ps` touch: for each post already
      in the sheet, its first row. */
  function Touched(rows: seq<Row>, ps: seq<ThreadsPost>): (t: set<nat>)
    ensures forall r :: r in t ==> 2 <= r <= |rows|
  {
    if ps == [] then {}
    else
      Touched(rows, ps[..|ps| - 1])
      + (match FirstDataRow(rows, PostIdIs(ps[|ps| - 1].id)) case Some(r) => {r} case None => {})
  }

  /** How many of `ps` are already in the sheet. */
  function FoundCount(rows: seq<Row>, ps: seq<ThreadsPost>): nat {
    if ps == [] then 0
    else FoundCount(rows, ps[..|ps| - 1]) + (if FirstDataRow(rows, PostIdIs(ps[|ps| - 1].id)).Some? then 1 else 0)
  }

  /** The rows appended for the posts of `ps` not yet in the sheet, in their order. */
  function AddedRows(rows: seq<Row>, ps: seq<ThreadsPost>, now: int): seq<Row> {
    if ps == [] then []
    else
      AddedRows(rows, ps[..|ps| - 1], now)
      + (if FirstDataRow(rows, PostIdIs(ps[|ps| - 1].id)).None? then [PostMasterRow(ps[|ps| - 1], now)] else [])
  }

  /** The rows with column K set to `now` on the row numbers of `touched`. */
  function Stamped(rows: seq<Row>, touched: set<nat>, now: int): (r: seq<Row>)
    ensures |r| == |rows|
  {
    seq(|rows|, k requires 0 <= k < |rows| =>
      if k + 1 in touched then Overwrite(rows[k], 10, [Date(now)]) else rows[k])
  }

  /** The sheet after the posts `ps` are processed. */
  function PostMaster(rows: seq<Row>, ps: seq<ThreadsPost>, now: int): seq<Row> {
    Stamped(rows, Touched(rows, ps), now) + AddedRows(rows, ps, now)
  }

  /** Every post either touches its row or adds one. */
  lemma {:induction false} FoundPlusAdded(rows: seq<Row>, ps: seq<ThreadsPost>, now: int)
    ensures FoundCount(rows, ps) + |AddedRows(rows, ps, now)| == |ps|
  {
    if ps != [] {
      FoundPlusAdded(rows, ps[..|ps| - 1], now);
    }
  }

  /** `row` is the appended row of a post of `ps` whose id the sheet did not hold. */
  predicate RowOfNewPost(rows: seq<Row>, ps: seq<ThreadsPost>, row: Row, now: int) {
    exists p :: p in ps && row == PostMasterRow(p, now) && FirstDataRow(rows, PostIdIs(p.id)).None?
  }

  /** A new post's row among the first posts is one among all of them. */
  lemma NewPostOfPrefix(rows: seq<Row>, ps: seq<ThreadsPost>, row: Row, now: int)
    requires ps != [] && RowOfNewPost(rows, ps[..|ps| - 1], row, now)
    ensures |row| == 11 && RowOfNewPost(rows, ps, row, now)
  {
    var p :| p in ps[..|ps| - 1] && row == PostMasterRow(p, now) && FirstDataRow(rows, PostIdIs(p.id)).None?;
    assert p in ps;
  }

  /** Each added row has the eleven columns and is the row of a post of `ps` whose
      id the sheet did not hold. */
  lemma {:induction false} AddedRowsAreNew(rows: seq<Row>, ps: seq<ThreadsPost>, now: int)
    ensures forall k :: 0 <= k < |AddedRows(rows, ps, now)| ==>
      |AddedRows(rows, ps, now)[k]| == 11 && RowOfNewPost(rows, ps, AddedRows(rows, ps, now)[k], now)
  {
    if ps != [] {
      var init, last := ps[..|ps| - 1], ps[|ps| - 1];
      AddedRowsAreNew(rows, init, now);
      var before := AddedRows(rows, init, now);
      var added := AddedRows(rows, ps, now);
      var isNew := FirstDataRow(rows, PostIdIs(last.id)).None?;
      assert added == before + (if isNew then [PostMasterRow(last, now)] else []);
      forall k | 0 <= k < |added|
        ensures |added[k]| == 11 && RowOfNewPost(rows, ps, added[k], now)
      {
        if k < |before| {
          assert added[k] == before[k];
          NewPostOfPrefix(rows, ps, added[k], now);
        } else {
          assert added[k] == PostMasterRow(last, now);
          assert last in ps;
        }
      }
    }
  }

  /** Outside column K the old rows keep every cell, and the sheet only grows. */
  lemma PostMasterKeepsColumns(rows: seq<Row>, ps: seq<ThreadsPost>, now: int, k: nat, j: nat)
    requires k < |rows| && j != 10
    ensures |PostMaster(rows, ps, now)| >= |rows|
    ensures CellAt(PostMaster(rows, ps, now)[k], j) == CellAt(rows[k], j)
  {
    OverwriteCells(rows[k], 10, [Date(now)], j);
  }

  /** The ids of column A below the header. */
  function IdsOf(rows: seq<Row>): set<Cell> {
    set k | 1 <= k < |rows| :: CellAt(rows[k], 0)
  }

  /** The id set holds a post exactly when the look-up finds it. */
  lemma ExistingIds(rows: seq<Row>, id: string)
    ensures Str(id) in IdsOf(rows) <==> FirstDataRow(rows, PostIdIs(id)).Some?
  {
    var r := FirstDataRow(rows, PostIdIs(id));
    if r.Some? {
      assert CellAt(rows[r.value - 1], 0) == Str(id);
    }
  }

  /** Stamping one more row is writing column K of that row. */
  lemma StampOne(rows: seq<Row>, touched: set<nat>, r: nat, now: int)
    requires 1 <= r <= |rows|
    ensures Stamped(rows, touched + {r}, now)
      == Stamped(rows, touched, now)[r - 1 := Overwrite(Stamped(rows, touched, now)[r - 1], 10, [Date(now)])]
  {
    OverwriteTwice(rows[r - 1], 10, [Date(now)]);
  }

  /** The look-up by id finds on the stamped and grown sheet the row it finds on the
      old one: column A is never written. */
  lemma FoundAfterStamps(rows: seq<Row>, ps: seq<ThreadsPost>, id: string, now: int)
    requires FirstDataRow(rows, PostIdIs(id)).Some?
    ensures FirstDataRow(PostMaster(rows, ps, now), PostIdIs(id)) == FirstDataRow(rows, PostIdIs(id))
  {
    var cur := PostMaster(rows, ps, now);
    forall k | 1 <= k < |rows|
      ensures PostIdIs(id)(rows[k]) == PostIdIs(id)(cur[k])
    {
      OverwriteCells(rows[k], 10, [Date(now)], 0);
    }
    FirstRowFromAgree(rows, cur, PostIdIs(id), 1);
  }

  /** One post of the loop, found in the sheet: its row gets column K and the count of
      updates grows by one. */
  lemma PostFoundStep(rows: seq<Row>, ps: seq<ThreadsPost>, i: nat, now: int)
    requires i < |ps| && FirstDataRow(rows, PostIdIs(ps[i].id)).Some?
    ensures var cur := PostMaster(rows, ps[..i], now);
      var r := FirstDataRow(rows, PostIdIs(ps[i].id)).value;
      1 <= r <= |cur| && FirstDataRow(cur, PostIdIs(ps[i].id)) == Some(r) &&
      cur[r - 1 := Overwrite(cur[r - 1], 10, [Date(now)])] == PostMaster(rows, ps[..i + 1], now) &&
      FoundCount(rows, ps[..i + 1]) == FoundCount(rows, ps[..i]) + 1
  {
    var r := FirstDataRow(rows, PostIdIs(ps[i].id)).value;
    FoundAfterStamps(rows, ps[..i], ps[i].id, now);
    FoundPrefix(rows, ps, i, now);
    var stamped := Stamped(rows, Touched(rows, ps[..i]), now);
    var added := AddedRows(rows, ps[..i], now);
    StampOne(rows, Touched(rows, ps[..i]), r, now);
    UpdateInFront(stamped, added, r - 1, Overwrite(stamped[r - 1], 10, [Date(now)]));
  }

  /** Updating an element of the front part of a concatenation updates that part. */
  lemma UpdateInFront<T>(a: seq<T>, b: seq<T>, j: nat, x: T)
    requires j < |a|
    ensures (a + b)[j := x] == a[j := x] + b
  {
  }

  /** A post found in the sheet touches its row, adds none and counts once. */
  lemma FoundPrefix(rows: seq<Row>, ps: seq<ThreadsPost>, i: nat, now: int)
    requires i < |ps| && FirstDataRow(rows, PostIdIs(ps[i].id)).Some?
    ensures Touched(rows, ps[..i + 1]) == Touched(rows, ps[..i]) + {FirstDataRow(rows, PostIdIs(ps[i].id)).value}
    ensures AddedRows(rows, ps[..i + 1], now) == AddedRows(rows, ps[..i], now)
    ensures FoundCount(rows, ps[..i + 1]) == FoundCount(rows, ps[..i]) + 1
  {
    assert ps[..i + 1][..i] == ps[..i];
  }

  /** One post of the loop, not in the sheet: its row is appended and the count of
      updates stays. */
  lemma PostNewStep(rows: seq<Row>, ps: seq<ThreadsPost>, i: nat, now: int)
    requires i < |ps| && FirstDataRow(rows, PostIdIs(ps[i].id)).None?
    ensures PostMaster(rows, ps[..i], now) + [PostMasterRow(ps[i], now)] == PostMaster(rows, ps[..i + 1], now)
    ensures FoundCount(rows, ps[..i + 1]) == FoundCount(rows, ps[..i])
  {
    assert ps[..i + 1][..i] == ps[..i];
    assert Touched(rows, ps[..i + 1]) == Touched(rows, ps[..i]);
    assert AddedRows(rows, ps[..i + 1], now) == AddedRows(rows, ps[..i], now) + [PostMasterRow(ps[i], now)];
  }

  /** What `addOrUpdatePosts` reports on success. */
  datatype PostsUpdate = PostsUpdate(message: string, addedCount: nat, updatedCount: nat)

  /** The message of a run that saw `total` recent posts, added `added` and updated
      `updated`. */
  function UpdateMessage(total: nat, added: nat, updated: nat): string {
    "7日前までの投稿: " + NatToString(total) + "件（追加" + NatToString(added) + "件, 更新" + NatToString(updated) + "件）"
  }

  /** The error text of calling `createPostsMasterTable`, which `SpreadsheetManager`
      does not define. */
  const MissingTableMaker := "manager.createPostsMasterTable is not a function"

  /** The loop of `addOrUpdatePosts` over the recent posts: a post already in the sheet
      has its `updated_at` (column K) set to `now`, any other is appended. */
  method UpdatePostRows(postsSheet: Sheet, apiPosts: seq<ThreadsPost>, now: int) returns (addedCount: nat, updatedCount: nat)
    modifies postsSheet
    ensures postsSheet.rows == PostMaster(old(postsSheet.rows), apiPosts, now)
    ensures updatedCount == FoundCount(old(postsSheet.rows), apiPosts)
    ensures addedCount + updatedCount == |apiPosts|
  {
    var rows0 := postsSheet.rows;
    var existingPostIds := IdsOf(rows0);
    addedCount, updatedCount := 0, 0;
    var i := 0;
    while i < |apiPosts|
      invariant i <= |apiPosts|
      invariant postsSheet.rows == PostMaster(rows0, apiPosts[..i], now)
      invariant updatedCount == FoundCount(rows0, apiPosts[..i])
      invariant addedCount + updatedCount == i
    {
      var post := apiPosts[i];
      ExistingIds(rows0, post.id);
      if Str(post.id) in existingPostIds {
        PostFoundStep(rows0, apiPosts, i, now);
        var rowIndex := FindPostRow(postsSheet, post.id);
        if rowIndex.Some? {
          postsSheet.SetCells(rowIndex.value, 10, [Date(now)]);
          updatedCount := updatedCount + 1;
        }
      } else {
        PostNewStep(rows0, apiPosts, i, now);
        postsSheet.AppendRow(PostMasterRow(post, now));
        addedCount := addedCount + 1;
      }
      i := i + 1;
    }
    assert apiPosts[..|apiPosts|] == apiPosts;
  }

  /** `addOrUpdatePosts()`. `fetched` is what `fetchUserPostsWithRetry` returns
      (`None` for a failure), `cutoffSeconds` is seven days ago in Unix seconds,
      `openError` the error `openById` throws for the ID (`None` when it opens the
      spreadsheet), `postsSheet` the `posts` sheet or `null`, `now` the time of the
      run. */
  method AddOrUpdatePosts(apiKey: string, spreadsheetId: string, fetched: Option<seq<ThreadsPost>>, cutoffSeconds: int,
                          parseDate: string -> Option<int>, openError: Option<string>, postsSheet: Sheet?, now: int)
      returns (r: Result<PostsUpdate>)
    modifies postsSheet
    ensures apiKey == "" ==> r == Err("APIキーが設定されていません")
    ensures apiKey != "" && spreadsheetId == "" ==> r == Err("スプレッドシートIDが設定されていません")
    ensures apiKey != "" && spreadsheetId != "" && fetched.None? ==> r == Err("投稿一覧の取得に失敗しました")
    ensures apiKey != "" && spreadsheetId != "" && fetched.Some? && openError.Some? ==> r == Err(openError.value)
    ensures apiKey != "" && spreadsheetId != "" && fetched.Some? && openError.None? && postsSheet == null ==>
      r == Err("postsシートの作成に失敗しました: " + MissingTableMaker)
    ensures r.Err? && postsSheet != null ==> postsSheet.rows == old(postsSheet.rows)
    ensures r.Ok? ==> apiKey != "" && spreadsheetId != "" && fetched.Some? && openError.None? && postsSheet != null
    ensures r.Ok? ==>
      var ps := Recent(fetched.value, cutoffSeconds, parseDate);
      postsSheet.rows == PostMaster(old(postsSheet.rows), ps, now) &&
      r.value.updatedCount == FoundCount(old(postsSheet.rows), ps) &&
      r.value.addedCount == |ps| - FoundCount(old(postsSheet.rows), ps) &&
      r.value.message == UpdateMessage(|ps|, r.value.addedCount, r.value.updatedCount)
  {
    if apiKey == "" {
      return Err("APIキーが設定されていません");
    }
    if spreadsheetId == "" {
      return Err("スプレッドシートIDが設定されていません");
    }
    if fetched.None? {
      return Err("投稿一覧の取得に失敗しました");
    }
    var apiPosts := Recent(fetched.value, cutoffSeconds, parseDate);
    if openError.Some? {
      return Err(openError.value);
    }
    if postsSheet == null {
      return Err("postsシートの作成に失敗しました: " + MissingTableMaker);
    }
    var addedCount, updatedCount := UpdatePostRows(postsSheet, apiPosts, now);
    r := Ok(PostsUpdate(UpdateMessage(|apiPosts|, addedCount, updatedCount), addedCount, updatedCount));
  }

  // ---------------------------------------------------------------------------
  // Migration from the ThreadsData sheet

  /** The engine's conversions the migration relies on: `String()` of a number and of
      a date, `Number()` of a text (`None` for `NaN`), and the date parser. */
  datatype Conversions = Conversions(numberText: real -> string, dateText: int -> string,
                                     parseNumber: string -> Option<real>, parseDate: string -> Option<int>)

  /** A cell as a condition: empty text, 0 and `NaN` are falsy. */
  predicate Truthy(c: Cell) {
    match c
    case Str(s) => s != ""
    case Num(n) => n != 0.0
    case Date(_) => true
    case BadDate => true
    case NaN => false
  }

  /** `String(cell)`. */
  function JsString(c: Cell, cv: Conversions): string {
    match c
    case Str(s) => s
    case Num(n) => cv.numberText(n)
    case Date(ms) => cv.dateText(ms)
    case BadDate => "Invalid Date"
    case NaN => "NaN"
  }

  /** `Number(cell || 0)`. */
  function NumberOf(c: Cell, cv: Conversions): (r: Cell)
    ensures r.Num? || r.NaN?
    ensures !Truthy(c) ==> r == Num(0.0)
  {
    if !Truthy(c) then Num(0.0)
    else match c
      case Str(s) => (match cv.parseNumber(s) case Some(n) => Num(n) case None => NaN)
      case Num(n) => Num(n)
      case Date(ms) => Num(ms as real)
      case _ => NaN
  }

  /** `a + b` on two numbers, `NaN` spreading. */
  function Plus(a: Cell, b: Cell): Cell {
    if a.Num? && b.Num? then Num(a.n + b.n) else NaN
  }

  /** The first index `k >= i` with `lit` at `s[k..]`. */
  function FindFrom(s: string, lit: string, i: nat): (k: Option<nat>)
    requires i <= |s|
    ensures k.Some? ==> i <= k.value && At(s, k.value, lit) && forall j :: i <= j < k.value ==> !At(s, j, lit)
    ensures k.None? ==> forall j :: i <= j <= |s| ==> !At(s, j, lit)
    decreases |s| - i
  {
    if At(s, i, lit) then Some(i)
    else if i == |s| then None
    else FindFrom(s, lit, i + 1)
  }

  /** `s.replace(lit, rep)` with a text pattern: the first occurrence only. */
  function ReplaceFirst(s: string, lit: string, rep: string): string {
    match FindFrom(s, lit, 0)
    case None => s
    case Some(k) => s[..k] + rep + s[k + |lit|..]
  }

  /** `postType.replace('_POST', '')` drops the first `_POST`: a type such as
      `TEXT_POST` loses its suffix, and a type without `_POST` is left unchanged. */
  lemma MediaTypeOfPostType(name: string, s: string)
    requires forall j :: 0 <= j < |name| ==> !At(name + "_POST", j, "_POST")
    ensures ReplaceFirst(name + "_POST", "_POST", "") == name
    ensures (forall j :: 0 <= j <= |s| ==> !At(s, j, "_POST")) ==> ReplaceFirst(s, "_POST", "") == s
  {
    var t := name + "_POST";
    assert At(t, |name|, "_POST") by {
      assert t[|name|..|name| + 5] == "_POST";
    }
    assert FindFrom(t, "_POST", 0) == Some(|name|);
    assert t[..|name|] == name;
  }

  /** `row[14] || row[0]`: the fetch time, or the record's timestamp. */
  function CapturedAt(row: Row): Cell {
    if Truthy(CellAt(row, 14)) then CellAt(row, 14) else CellAt(row, 0)
  }

  /** The row the migration appends to `posts` for the `ThreadsData` row `row`. */
  function MigratedPostRow(postId: string, row: Row, now: int, cv: Conversions): Row {
    var postText := if Truthy(CellAt(row, 2)) then JsString(CellAt(row, 2), cv) else "";
    var postType := if Truthy(CellAt(row, 4)) then JsString(CellAt(row, 4), cv) else "TEXT_POST";
    [Str(postId), Str("threads"), Str(""), CellAt(row, 5), Str(postText), Str(""), NumberOf(CellAt(row, 3), cv),
     Str(ReplaceFirst(postType, "_POST", "")), Str(""), Date(now), Date(now)]
  }

  /** `Math.floor((captured - posted) / 3600000)`, `NaN` for an Invalid Date. */
  function HoursBetween(captured: Option<int>, posted: Option<int>): Cell {
    if captured.Some? && posted.Some? then Num(((captured.value - posted.value) / 3600000) as real) else NaN
  }

  /** The row the migration appends to `post_metrics_hourly`; shares are reposts plus
      quotes. */
  function MigratedMetricRow(postId: string, row: Row, cv: Conversions): (r: Row)
    ensures |r| == 10 && r[0] == Str(postId) && r[5] == Plus(NumberOf(CellAt(row, 8), cv), NumberOf(CellAt(row, 9), cv))
    ensures AsDate(r[1], cv.parseDate) == AsDate(CapturedAt(row), cv.parseDate)
  {
    var captured := AsDate(CapturedAt(row), cv.parseDate);
    var shares := Plus(NumberOf(CellAt(row, 8), cv), NumberOf(CellAt(row, 9), cv));
    DateCellReadsBack(captured, cv.parseDate);
    MetricRowOf(postId, DateCell(captured), MetricCounts(row, cv), shares, HoursBetween(captured, AsDate(CellAt(row, 5), cv.parseDate)))
  }

  /** Impressions, likes and replies, then (after the shares) the follower count, an
      empty account id and the engagement rate. */
  function MetricCounts(row: Row, cv: Conversions): (r: seq<Cell>)
    ensures |r| == 6
  {
    [NumberOf(CellAt(row, 6), cv), NumberOf(CellAt(row, 7), cv), NumberOf(CellAt(row, 10), cv),
     NumberOf(CellAt(row, 13), cv), Str(""), NumberOf(CellAt(row, 12), cv)]
  }

  /** The ten cells of a `post_metrics_hourly` row, in column order. */
  function MetricRowOf(postId: string, captured: Cell, counts: seq<Cell>, shares: Cell, hours: Cell): (r: Row)
    requires |counts| == 6
    ensures |r| == 10 && r[0] == Str(postId) && r[1] == captured && r[5] == shares
  {
    [Str(postId), captured, counts[0], counts[1], counts[2], shares, counts[3], counts[4], counts[5], hours]
  }

  /** The ids the migration skips. */
  predicate SkippedId(postId: string) {
    postId == "" || postId == "undefined" || postId == "null"
  }

  /** The two sheets and the counters while the migration runs. */
  datatype Migration = Migration(posts: seq<Row>, metrics: seq<Row>, processed: set<string>,
                                 migratedPosts: nat, migratedMetrics: nat)

  /** The `posts` half of one round: a post id met for the first time is appended
      unless the sheet already holds it. */
  function MigratePost(m: Migration, postId: string, row: Row, now: int, cv: Conversions): Migration {
    if postId in m.processed then m
    else if FirstDataRow(m.posts, PostIdIs(postId)).None? then
      m.(posts := m.posts + [MigratedPostRow(postId, row, now, cv)], migratedPosts := m.migratedPosts + 1,
         processed := m.processed + {postId})
    else m.(processed := m.processed + {postId})
  }

  /** The `post_metrics_hourly` half of one round: the metrics row is appended unless
      one of the same post and capture time is there. */
  function MigrateMetric(m: Migration, postId: string, row: Row, cv: Conversions): Migration {
    if FirstDataRow(m.metrics, MetricKeyIs(postId, AsDate(CapturedAt(row), cv.parseDate), cv.parseDate)).None? then
      m.(metrics := m.metrics + [MigratedMetricRow(postId, row, cv)], migratedMetrics := m.migratedMetrics + 1)
    else m
  }

  /** One round of the migration loop. */
  function MigrateRow(m: Migration, row: Row, now: int, cv: Conversions): Migration {
    var postId := JsString(CellAt(row, 1), cv);
    if SkippedId(postId) then m else MigrateMetric(MigratePost(m, postId, row, now, cv), postId, row, cv)
  }

  /** The migration after the rows `rows`, in order. */
  function MigrateRows(m: Migration, rows: seq<Row>, now: int, cv: Conversions): Migration {
    if rows == [] then m else MigrateRow(MigrateRows(m, rows[..|rows| - 1], now, cv), rows[|rows| - 1], now, cv)
  }

  /** No data row from index `from` on repeats the column A of an earlier data row. */
  ghost predicate FreshIdsFrom(rows: seq<Row>, from: nat) {
    forall k, j :: from <= k < |rows| && 1 <= j < k ==> CellAt(rows[j], 0) != CellAt(rows[k], 0)
  }

  /** No metrics row from index `from` on repeats the post and valid capture time of
      an earlier data row. */
  ghost predicate FreshMetricsFrom(rows: seq<Row>, from: nat, parseDate: string -> Option<int>) {
    forall k, j :: from <= k < |rows| && 1 <= j < k ==>
      !(CellAt(rows[j], 0) == CellAt(rows[k], 0) && AsDate(CellAt(rows[k], 1), parseDate).Some?
        && AsDate(CellAt(rows[j], 1), parseDate) == AsDate(CellAt(rows[k], 1), parseDate))
  }

  /** A row appended for an id the look-up does not find keeps the ids fresh. */
  lemma FreshIdsAppend(rows: seq<Row>, row: Row, id: string, from: nat)
    requires from <= |rows| && FreshIdsFrom(rows, from)
    requires CellAt(row, 0) == Str(id) && FirstDataRow(rows, PostIdIs(id)).None?
    ensures FreshIdsFrom(rows + [row], from)
  {
    var n := rows + [row];
    forall k, j | from <= k < |n| && 1 <= j < k
      ensures CellAt(n[j], 0) != CellAt(n[k], 0)
    {
      if k == |rows| {
        assert !PostIdIs(id)(rows[j]);
      }
    }
  }

  /** A metrics row appended for a key the look-up does not find keeps the keys
      fresh. */
  lemma FreshMetricsAppend(rows: seq<Row>, row: Row, id: string, captured: Option<int>, parseDate: string -> Option<int>, from: nat)
    requires from <= |rows| && FreshMetricsFrom(rows, from, parseDate)
    requires CellAt(row, 0) == Str(id) && AsDate(CellAt(row, 1), parseDate) == captured
    requires FirstDataRow(rows, MetricKeyIs(id, captured, parseDate)).None?
    ensures FreshMetricsFrom(rows + [row], from, parseDate)
  {
    var n := rows + [row];
    forall k, j | from <= k < |n| && 1 <= j < k
      ensures !(CellAt(n[j], 0) == CellAt(n[k], 0) && AsDate(CellAt(n[k], 1), parseDate).Some?
        && AsDate(CellAt(n[j], 1), parseDate) == AsDate(CellAt(n[k], 1), parseDate))
    {
      if k == |rows| {
        assert !MetricKeyIs(id, captured, parseDate)(rows[j]);
      }
    }
  }

  /** The `posts` half of one round on the sheets, for an id not skipped. */
  method MigratePostStep(postsSheet: Sheet, metricsSheet: Sheet, processed: set<string>, migratedPosts: nat,
                         migratedMetrics: nat, postId: string, row: Row, now: int, cv: Conversions)
      returns (processed': set<string>, migratedPosts': nat)
    requires postsSheet != metricsSheet
    modifies postsSheet
    ensures Migration(postsSheet.rows, metricsSheet.rows, processed', migratedPosts', migratedMetrics)
      == MigratePost(Migration(old(postsSheet.rows), metricsSheet.rows, processed, migratedPosts, migratedMetrics), postId, row, now, cv)
  {
    processed', migratedPosts' := processed, migratedPosts;
    if postId !in processed {
      var existingPostRow := FindPostRow(postsSheet, postId);
      if existingPostRow.None? {
        postsSheet.AppendRow(MigratedPostRow(postId, row, now, cv));
        migratedPosts' := migratedPosts + 1;
      }
      processed' := processed + {postId};
    }
  }

  /** The `post_metrics_hourly` half of one round on the sheets. */
  method MigrateMetricStep(postsSheet: Sheet, metricsSheet: Sheet, processed: set<string>, migratedPosts: nat,
                           migratedMetrics: nat, postId: string, row: Row, cv: Conversions)
      returns (migratedMetrics': nat)
    requires postsSheet != metricsSheet
    modifies metricsSheet
    ensures FirstDataRow(old(metricsSheet.rows), MetricKeyIs(postId, AsDate(CapturedAt(row), cv.parseDate), cv.parseDate)).None? ==>
      metricsSheet.rows == old(metricsSheet.rows) + [MigratedMetricRow(postId, row, cv)] && migratedMetrics' == migratedMetrics + 1
    ensures FirstDataRow(old(metricsSheet.rows), MetricKeyIs(postId, AsDate(CapturedAt(row), cv.parseDate), cv.parseDate)).Some? ==>
      metricsSheet.rows == old(metricsSheet.rows) && migratedMetrics' == migratedMetrics
  {
    migratedMetrics' := migratedMetrics;
    var capturedAtDate := AsDate(CapturedAt(row), cv.parseDate);
    var existingMetricRow := FindMetricRow(metricsSheet, postId, capturedAtDate, cv.parseDate);
    if existingMetricRow.None? {
      var metricRow := MigratedMetricRow(postId, row, cv);
      metricsSheet.AppendRow(metricRow);
      migratedMetrics' := migratedMetrics + 1;
    }
  }

  /** One round of the loop on the two sheets. */
  method MigrateOne(postsSheet: Sheet, metricsSheet: Sheet, processed: set<string>, migratedPosts: nat, migratedMetrics: nat,
                    row: Row, now: int, cv: Conversions)
      returns (processed': set<string>, migratedPosts': nat, migratedMetrics': nat)
    requires postsSheet != metricsSheet
    modifies postsSheet, metricsSheet
    ensures Migration(postsSheet.rows, metricsSheet.rows, processed', migratedPosts', migratedMetrics')
      == MigrateRow(Migration(old(postsSheet.rows), old(metricsSheet.rows), processed, migratedPosts, migratedMetrics), row, now, cv)
  {
    ghost var b := Migration(postsSheet.rows, metricsSheet.rows, processed, migratedPosts, migratedMetrics);
    processed', migratedPosts', migratedMetrics' := processed, migratedPosts, migratedMetrics;
    var postId := JsString(CellAt(row, 1), cv);
    if SkippedId(postId) {
      return;
    }
    processed', migratedPosts' := MigratePostStep(postsSheet, metricsSheet, processed, migratedPosts, migratedMetrics,
                                                  postId, row, now, cv);
    ghost var b1 := Migration(postsSheet.rows, metricsSheet.rows, processed', migratedPosts', migratedMetrics);
    migratedMetrics' := MigrateMetricStep(postsSheet, metricsSheet, processed', migratedPosts', migratedMetrics,
                                          postId, row, cv);
    RoundOfSteps(b, b1, Migration(postsSheet.rows, metricsSheet.rows, processed', migratedPosts', migratedMetrics'), row, now, cv);
  }

  /** A round of an id not skipped is the `posts` half followed by the metrics half:
      `b1` is what the first leaves, `b2` what the second makes of it. */
  lemma RoundOfSteps(b: Migration, b1: Migration, b2: Migration, row: Row, now: int, cv: Conversions)
    requires !SkippedId(JsString(CellAt(row, 1), cv))
    requires b1 == MigratePost(b, JsString(CellAt(row, 1), cv), row, now, cv)
    requires b2.posts == b1.posts && b2.processed == b1.processed && b2.migratedPosts == b1.migratedPosts
    requires var key := MetricKeyIs(JsString(CellAt(row, 1), cv), AsDate(CapturedAt(row), cv.parseDate), cv.parseDate);
      FirstDataRow(b1.metrics, key).None? ==>
        b2.metrics == b1.metrics + [MigratedMetricRow(JsString(CellAt(row, 1), cv), row, cv)] && b2.migratedMetrics == b1.migratedMetrics + 1
    requires var key := MetricKeyIs(JsString(CellAt(row, 1), cv), AsDate(CapturedAt(row), cv.parseDate), cv.parseDate);
      FirstDataRow(b1.metrics, key).Some? ==> b2.metrics == b1.metrics && b2.migratedMetrics == b1.migratedMetrics
    ensures b2 == MigrateRow(b, row, now, cv)
  {
    var postId := JsString(CellAt(row, 1), cv);
    if FirstDataRow(b1.metrics, MetricKeyIs(postId, AsDate(CapturedAt(row), cv.parseDate), cv.parseDate)).None? {
      MigrateMetricAppends(b1, postId, row, cv);
    } else {
      MigrateMetricKeeps(b1, postId, row, cv);
    }
  }

  /** A metrics row of a new key is appended and counted. */
  lemma MigrateMetricAppends(m: Migration, postId: string, row: Row, cv: Conversions)
    requires FirstDataRow(m.metrics, MetricKeyIs(postId, AsDate(CapturedAt(row), cv.parseDate), cv.parseDate)).None?
    ensures MigrateMetric(m, postId, row, cv)
      == m.(metrics := m.metrics + [MigratedMetricRow(postId, row, cv)], migratedMetrics := m.migratedMetrics + 1)
  {
  }

  /** A metrics row whose key the sheet holds changes nothing. */
  lemma MigrateMetricKeeps(m: Migration, postId: string, row: Row, cv: Conversions)
    requires FirstDataRow(m.metrics, MetricKeyIs(postId, AsDate(CapturedAt(row), cv.parseDate), cv.parseDate)).Some?
    ensures MigrateMetric(m, postId, row, cv) == m
  {
  }

  /** What one round does to `posts`: at most one row is appended, counted, of an id
      not skipped and not already in the sheet. */
  lemma MigrateRowPosts(b: Migration, row: Row, now: int, cv: Conversions, from: nat)
    requires from <= |b.posts| && FreshIdsFrom(b.posts, from)
    requires forall k :: from <= k < |b.posts| ==> CellAt(b.posts[k], 0).Str? && !SkippedId(CellAt(b.posts[k], 0).s)
    ensures var n := MigrateRow(b, row, now, cv);
      |b.posts| <= |n.posts| && n.posts[..|b.posts|] == b.posts &&
      n.migratedPosts - b.migratedPosts == |n.posts| - |b.posts| &&
      FreshIdsFrom(n.posts, from) &&
      forall k :: from <= k < |n.posts| ==> CellAt(n.posts[k], 0).Str? && !SkippedId(CellAt(n.posts[k], 0).s)
  {
    var postId := JsString(CellAt(row, 1), cv);
    if !SkippedId(postId) {
      var b1 := MigratePost(b, postId, row, now, cv);
      assert MigrateRow(b, row, now, cv).posts == b1.posts;
      if postId !in b.processed && FirstDataRow(b.posts, PostIdIs(postId)).None? {
        var r := MigratedPostRow(postId, row, now, cv);
        assert b1.posts == b.posts + [r];
        FreshIdsAppend(b.posts, r, postId, from);
        AppendKeptIds(b.posts, r, from);
      } else {
        assert b1.posts == b.posts;
        assert b.posts[..|b.posts|] == b.posts;
      }
    } else {
      assert b.posts[..|b.posts|] == b.posts;
    }
  }

  /** What one round does to `post_metrics_hourly`: at most one row is appended,
      counted, of an id not skipped and of a key not already in the sheet. */
  lemma MigrateRowMetrics(b: Migration, row: Row, now: int, cv: Conversions, from: nat)
    requires from <= |b.metrics| && FreshMetricsFrom(b.metrics, from, cv.parseDate)
    requires forall k :: from <= k < |b.metrics| ==> CellAt(b.metrics[k], 0).Str? && !SkippedId(CellAt(b.metrics[k], 0).s)
    ensures var n := MigrateRow(b, row, now, cv);
      |b.metrics| <= |n.metrics| && n.metrics[..|b.metrics|] == b.metrics &&
      n.migratedMetrics - b.migratedMetrics == |n.metrics| - |b.metrics| &&
      FreshMetricsFrom(n.metrics, from, cv.parseDate) &&
      forall k :: from <= k < |n.metrics| ==> CellAt(n.metrics[k], 0).Str? && !SkippedId(CellAt(n.metrics[k], 0).s)
  {
    var postId := JsString(CellAt(row, 1), cv);
    if !SkippedId(postId) {
      var b1 := MigratePost(b, postId, row, now, cv);
      MigratePostKeepsMetrics(b, postId, row, now, cv);
      MigrateMetricFacts(b1, postId, row, cv, from);
    } else {
      assert b.metrics[..|b.metrics|] == b.metrics;
    }
  }

  lemma MigratePostKeepsMetrics(m: Migration, postId: string, row: Row, now: int, cv: Conversions)
    ensures MigratePost(m, postId, row, now, cv).metrics == m.metrics
    ensures MigratePost(m, postId, row, now, cv).migratedMetrics == m.migratedMetrics
  {
  }

  /** Appending a row of an id not skipped keeps every row from `from` on of such an
      id, and keeps the rows before it. */
  lemma AppendKeptIds(rows: seq<Row>, r: Row, from: nat)
    requires from <= |rows|
    requires forall k :: from <= k < |rows| ==> CellAt(rows[k], 0).Str? && !SkippedId(CellAt(rows[k], 0).s)
    requires CellAt(r, 0).Str? && !SkippedId(CellAt(r, 0).s)
    ensures (rows + [r])[..|rows|] == rows
    ensures forall k :: from <= k < |rows + [r]| ==> CellAt((rows + [r])[k], 0).Str? && !SkippedId(CellAt((rows + [r])[k], 0).s)
  {
    var n := rows + [r];
    assert n[..|rows|] == rows;
    forall k | from <= k < |n|
      ensures CellAt(n[k], 0).Str? && !SkippedId(CellAt(n[k], 0).s)
    {
      if k < |rows| {
        assert n[k] == rows[k];
      }
    }
  }

  /** The metrics half of a round for an id not skipped. */
  lemma MigrateMetricFacts(b: Migration, postId: string, row: Row, cv: Conversions, from: nat)
    requires !SkippedId(postId)
    requires from <= |b.metrics| && FreshMetricsFrom(b.metrics, from, cv.parseDate)
    requires forall k :: from <= k < |b.metrics| ==> CellAt(b.metrics[k], 0).Str? && !SkippedId(CellAt(b.metrics[k], 0).s)
    ensures var n := MigrateMetric(b, postId, row, cv);
      |b.metrics| <= |n.metrics| && n.metrics[..|b.metrics|] == b.metrics &&
      n.migratedMetrics - b.migratedMetrics == |n.metrics| - |b.metrics| &&
      FreshMetricsFrom(n.metrics, from, cv.parseDate) &&
      forall k :: from <= k < |n.metrics| ==> CellAt(n.metrics[k], 0).Str? && !SkippedId(CellAt(n.metrics[k], 0).s)
  {
    var captured := AsDate(CapturedAt(row), cv.parseDate);
    if FirstDataRow(b.metrics, MetricKeyIs(postId, captured, cv.parseDate)).None? {
      var r := MigratedMetricRow(postId, row, cv);
      assert MigrateMetric(b, postId, row, cv).metrics == b.metrics + [r];
      FreshMetricsAppend(b.metrics, r, postId, captured, cv.parseDate, from);
      AppendKeptIds(b.metrics, r, from);
    } else {
      assert b.metrics[..|b.metrics|] == b.metrics;
    }
  }

  /** Over the whole migration, `posts` only grows, by as many rows as it counts; no
      post id is appended that the sheet already holds (so each id at most once),
      and none the migration skips. */
  lemma {:induction false} MigrationPosts(m: Migration, rows: seq<Row>, now: int, cv: Conversions)
    ensures var n := MigrateRows(m, rows, now, cv);
      |m.posts| <= |n.posts| && n.posts[..|m.posts|] == m.posts &&
      n.migratedPosts - m.migratedPosts == |n.posts| - |m.posts| &&
      FreshIdsFrom(n.posts, |m.posts|) &&
      forall k :: |m.posts| <= k < |n.posts| ==> CellAt(n.posts[k], 0).Str? && !SkippedId(CellAt(n.posts[k], 0).s)
  {
    if rows != [] {
      MigrationPosts(m, rows[..|rows| - 1], now, cv);
      var b := MigrateRows(m, rows[..|rows| - 1], now, cv);
      MigrateRowPosts(b, rows[|rows| - 1], now, cv, |m.posts|);
      var n := MigrateRows(m, rows, now, cv);
      assert n.posts[..|m.posts|] == n.posts[..|b.posts|][..|m.posts|];
    }
  }

  /** Over the whole migration, `post_metrics_hourly` only grows, by as many rows as
      it counts; no row repeats a post and valid capture time already there, and
      none is of an id the migration skips. */
  lemma {:induction false} MigrationMetrics(m: Migration, rows: seq<Row>, now: int, cv: Conversions)
    ensures var n := MigrateRows(m, rows, now, cv);
      |m.metrics| <= |n.metrics| && n.metrics[..|m.metrics|] == m.metrics &&
      n.migratedMetrics - m.migratedMetrics == |n.metrics| - |m.metrics| &&
      FreshMetricsFrom(n.metrics, |m.metrics|, cv.parseDate) &&
      forall k :: |m.metrics| <= k < |n.metrics| ==> CellAt(n.metrics[k], 0).Str? && !SkippedId(CellAt(n.metrics[k], 0).s)
  {
    if rows != [] {
      MigrationMetrics(m, rows[..|rows| - 1], now, cv);
      var b := MigrateRows(m, rows[..|rows| - 1], now, cv);
      MigrateRowMetrics(b, rows[|rows| - 1], now, cv, |m.metrics|);
      var n := MigrateRows(m, rows, now, cv);
      assert n.metrics[..|m.metrics|] == n.metrics[..|b.metrics|][..|m.metrics|];
    }
  }

  /** The loop over the `ThreadsData` rows. */
  method MigrateAll(postsSheet: Sheet, metricsSheet: Sheet, data: seq<Row>, now: int, cv: Conversions)
      returns (migratedPosts: nat, migratedMetrics: nat)
    requires postsSheet != metricsSheet
    modifies postsSheet, metricsSheet
    ensures var n := MigrateRows(Migration(old(postsSheet.rows), old(metricsSheet.rows), {}, 0, 0), data, now, cv);
      postsSheet.rows == n.posts && metricsSheet.rows == n.metrics &&
      migratedPosts == n.migratedPosts && migratedMetrics == n.migratedMetrics
  {
    var start := Migration(postsSheet.rows, metricsSheet.rows, {}, 0, 0);
    migratedPosts, migratedMetrics := 0, 0;
    var processedPostIds: set<string> := {};
    var i := 0;
    while i < |data|
      invariant i <= |data|
      invariant Migration(postsSheet.rows, metricsSheet.rows, processedPostIds, migratedPosts, migratedMetrics)
        == MigrateRows(start, data[..i], now, cv)
    {
      assert data[..i + 1][..i] == data[..i];
      processedPostIds, migratedPosts, migratedMetrics :=
        MigrateOne(postsSheet, metricsSheet, processedPostIds, migratedPosts, migratedMetrics, data[i], now, cv);
      i := i + 1;
    }
    assert data[..|data|] == data;
  }

  /** `migrateThreadsDataToNewSchema()`. `sheetsPresent` says whether both new sheets
      existed (`openError` is the error `openById` throws for the ID, `None` when it
      opens the spreadsheet); when not, `initialized` is what `initializeSpreadsheetDatabase`
      reported, and `postsSheet` and `metricsSheet` are the sheets it left: that
      routine makes `posts` and `logs` only, so `metricsSheet` may still be `null`.
      `threadsData` is the `ThreadsData` sheet or `null`. */
  method MigrateThreadsDataToNewSchema(spreadsheetId: string, openError: Option<string>, sheetsPresent: bool, initialized: Result<()>,
                                       postsSheet: Sheet, metricsSheet: Sheet?, threadsData: Sheet?, now: int,
                                       cv: Conversions) returns (r: Result<(string, nat)>)
    requires sheetsPresent ==> metricsSheet != null
    requires postsSheet != metricsSheet && threadsData != postsSheet && (metricsSheet != null ==> threadsData != metricsSheet)
    modifies postsSheet, metricsSheet
    ensures spreadsheetId == "" ==> r == Err("スプレッドシートIDが設定されていません")
    ensures spreadsheetId != "" && openError.Some? ==> r == Err(MigrationError(openError.value))
    ensures spreadsheetId != "" && openError.None? && !sheetsPresent && initialized.Err? ==>
      r == Err("シートの初期化に失敗しました: " + initialized.message)
    ensures spreadsheetId != "" && openError.None? && (sheetsPresent || initialized.Ok?) && threadsData == null ==>
      r == Err("ThreadsDataシートが見つかりません")
    ensures r.Err? && metricsSheet != null ==> postsSheet.rows == old(postsSheet.rows) && metricsSheet.rows == old(metricsSheet.rows)
    ensures r.Err? && (spreadsheetId == "" || openError.Some? || (!sheetsPresent && initialized.Err?) || threadsData == null) ==>
      postsSheet.rows == old(postsSheet.rows)
    ensures r.Ok? ==> spreadsheetId != "" && openError.None? && (sheetsPresent || initialized.Ok?) && threadsData != null
    ensures r.Ok? && threadsData != null && |threadsData.rows| < 2 ==>
      r.value == ("移行するデータがありません", 0) && postsSheet.rows == old(postsSheet.rows) &&
      (metricsSheet != null ==> metricsSheet.rows == old(metricsSheet.rows))
    ensures spreadsheetId != "" && openError.None? && (sheetsPresent || initialized.Ok?) && threadsData != null &&
            |threadsData.rows| >= 2 && metricsSheet != null ==>
      var n := MigrateRows(Migration(old(postsSheet.rows), old(metricsSheet.rows), {}, 0, 0), threadsData.rows[1..], now, cv);
      postsSheet.rows == n.posts && metricsSheet.rows == n.metrics &&
      r == Ok(MigrationReport(n.migratedPosts, n.migratedMetrics))
    ensures spreadsheetId != "" && openError.None? && (sheetsPresent || initialized.Ok?) && threadsData != null &&
            |threadsData.rows| >= 2 && metricsSheet == null ==>
      (postsSheet.rows, r) == MigrationWithoutMetrics(old(postsSheet.rows), threadsData.rows[1..], now, cv)
  {
    if spreadsheetId == "" {
      return Err("スプレッドシートIDが設定されていません");
    }
    if openError.Some? {
      return Err(MigrationError(openError.value));
    }
    if !sheetsPresent && initialized.Err? {
      return Err("シートの初期化に失敗しました: " + initialized.message);
    }
    if threadsData == null {
      return Err("ThreadsDataシートが見つかりません");
    }
    if threadsData.LastRow() < 2 {
      return Ok(("移行するデータがありません", 0));
    }
    if metricsSheet == null {
      r := MigrateWithoutMetricsSheet(postsSheet, threadsData.rows[1..], now, cv);
      return;
    }
    var migratedPosts, migratedMetrics := MigrateAll(postsSheet, metricsSheet, threadsData.rows[1..], now, cv);
    r := Ok(MigrationReport(migratedPosts, migratedMetrics));
  }

  /** What the JavaScript engine reports when the migration calls `appendRow` on the
      missing metrics sheet. */
  const NullSheetAppend := "Cannot read properties of null (reading 'appendRow')"

  /** The message the migration's `catch` returns for a thrown error. */
  function MigrationError(thrown: string): string {
    "データ移行エラー: " + thrown
  }

  /** The first row, from `i` on, whose id the migration does not skip. */
  function FirstMigratedFrom(rows: seq<Row>, i: nat, cv: Conversions): (k: Option<nat>)
    requires i <= |rows|
    ensures k.Some? ==> i <= k.value < |rows| && !SkippedId(JsString(CellAt(rows[k.value], 1), cv))
    ensures k.Some? ==> forall j :: i <= j < k.value ==> SkippedId(JsString(CellAt(rows[j], 1), cv))
    ensures k.None? ==> forall j :: i <= j < |rows| ==> SkippedId(JsString(CellAt(rows[j], 1), cv))
    decreases |rows| - i
  {
    if i == |rows| then None
    else if !SkippedId(JsString(CellAt(rows[i], 1), cv)) then Some(i)
    else FirstMigratedFrom(rows, i + 1, cv)
  }

  /** The migration as written when `post_metrics_hourly` is missing: the rows of
      skipped ids pass, the first other row appends its post (when new), and the
      metrics append of that same round throws; the `posts` row stays. */
  function MigrationWithoutMetrics(posts: seq<Row>, data: seq<Row>, now: int, cv: Conversions): (seq<Row>, Result<(string, nat)>) {
    match FirstMigratedFrom(data, 0, cv)
    case None => (posts, Ok(MigrationReport(0, 0)))
    case Some(k) =>
      var postId := JsString(CellAt(data[k], 1), cv);
      (MigratePost(Migration(posts, [], {}, 0, 0), postId, data[k], now, cv).posts, Err(MigrationError(NullSheetAppend)))
  }

  /** The loop of the migration with no metrics sheet, up to the round that throws. */
  method MigrateWithoutMetricsSheet(postsSheet: Sheet, data: seq<Row>, now: int, cv: Conversions)
      returns (r: Result<(string, nat)>)
    modifies postsSheet
    ensures (postsSheet.rows, r) == MigrationWithoutMetrics(old(postsSheet.rows), data, now, cv)
  {
    var i := 0;
    while i < |data| && SkippedId(JsString(CellAt(data[i], 1), cv))
      invariant i <= |data|
      invariant FirstMigratedFrom(data, 0, cv) == FirstMigratedFrom(data, i, cv)
      invariant postsSheet.rows == old(postsSheet.rows)
    {
      i := i + 1;
    }
    if i == |data| {
      return Ok(MigrationReport(0, 0));
    }
    var postId := JsString(CellAt(data[i], 1), cv);
    var existingPostRow := FindPostRow(postsSheet, postId);
    if existingPostRow.None? {
      postsSheet.AppendRow(MigratedPostRow(postId, data[i], now, cv));
    }
    return Err(MigrationError(NullSheetAppend));
  }

  /** The column names of `post_metrics_hourly`, in the order the migration writes
      its cells. */
  const MetricsHeader: Row := [Str("post_id"), Str("captured_at"), Str("impressions"), Str("likes"), Str("comments"),
                               Str("shares"), Str("follower_count"), Str("account_id"), Str("engagement_rate"),
                               Str("hours_since_post")]

  /** The migration as intended: a missing `post_metrics_hourly` sheet is made (with
      its header row) before the loop, so every round can write its metrics row. */
  method MigrateThreadsDataAsIntended(spreadsheetId: string, openError: Option<string>, sheetsPresent: bool, initialized: Result<()>,
                                      postsSheet: Sheet, metricsSheet: Sheet?, threadsData: Sheet?, now: int,
                                      cv: Conversions) returns (r: Result<(string, nat)>, metrics: Sheet?)
    requires sheetsPresent ==> metricsSheet != null
    requires postsSheet != metricsSheet && threadsData != postsSheet && (metricsSheet != null ==> threadsData != metricsSheet)
    modifies postsSheet, metricsSheet
    ensures r.Err? <==> spreadsheetId == "" || openError.Some? || (!sheetsPresent && initialized.Err?) || threadsData == null
    ensures r.Err? ==> postsSheet.rows == old(postsSheet.rows) && metrics == metricsSheet
    ensures r.Err? && metricsSheet != null ==> metricsSheet.rows == old(metricsSheet.rows)
    ensures r.Ok? && threadsData != null && |threadsData.rows| >= 2 ==>
      metrics != null && (metricsSheet != null ==> metrics == metricsSheet) && (metricsSheet == null ==> fresh(metrics)) &&
      var n := MigrateRows(Migration(old(postsSheet.rows), if metricsSheet == null then [MetricsHeader] else old(metricsSheet.rows),
                                     {}, 0, 0), threadsData.rows[1..], now, cv);
      postsSheet.rows == n.posts && metrics.rows == n.metrics && r.value == MigrationReport(n.migratedPosts, n.migratedMetrics)
  {
    metrics := metricsSheet;
    if spreadsheetId == "" {
      return Err("スプレッドシートIDが設定されていません"), metrics;
    }
    if openError.Some? {
      return Err(MigrationError(openError.value)), metrics;
    }
    if !sheetsPresent && initialized.Err? {
      return Err("シートの初期化に失敗しました: " + initialized.message), metrics;
    }
    if threadsData == null {
      return Err("ThreadsDataシートが見つかりません"), metrics;
    }
    if threadsData.LastRow() < 2 {
      return Ok(("移行するデータがありません", 0)), metrics;
    }
    var sheet: Sheet;
    if metricsSheet == null {
      sheet := new Sheet([MetricsHeader]);
    } else {
      sheet := metricsSheet;
    }
    metrics := sheet;
    var migratedPosts, migratedMetrics := MigrateAll(postsSheet, sheet, threadsData.rows[1..], now, cv);
    r := Ok(MigrationReport(migratedPosts, migratedMetrics));
  }

  /** One `ThreadsData` row of post `p1` into sheets holding only their headers: as written, without the
      metrics sheet, the post is written and the run then fails; as intended, the
      post and its metrics row are both migrated. */
  lemma MissingMetricsSheetBreaksMigration(postsHeader: Row, row: Row, now: int, cv: Conversions)
    requires CellAt(row, 1) == Str("p1")
    ensures var (posts, r) := MigrationWithoutMetrics([postsHeader], [row], now, cv);
      r == Err(MigrationError(NullSheetAppend)) && |posts| == 2
    ensures var n := MigrateRows(Migration([postsHeader], [MetricsHeader], {}, 0, 0), [row], now, cv);
      n.migratedPosts == 1 && n.migratedMetrics == 1 && |n.posts| == 2 && |n.metrics| == 2
  {
    assert FirstMigratedFrom([row], 0, cv) == Some(0);
    assert [row][..0] == [];
  }

  /** The message and the total of a migration that appended `posts` and `metrics`
      rows. */
  function MigrationReport(posts: nat, metrics: nat): (string, nat) {
    ("移行完了: 投稿" + NatToString(posts) + "件、メトリクス" + NatToString(metrics) + "件", posts + metrics)
  }

  // ---------------------------------------------------------------------------
  // Batch trigger status (src_backup/Code.ts)

  const BatchHandler := "hourlyBatchDataCollection"

  /** How many of the triggers' handler names are the batch handler. */
  function BatchTriggerCount(handlers: seq<string>): (n: nat)
    ensures n == multiset(handlers)[BatchHandler]
    ensures n <= |handlers|
  {
    if handlers == [] then 0
    else
      assert handlers == [handlers[0]] + handlers[1..];
      (if handlers[0] == BatchHandler then 1 else 0) + BatchTriggerCount(handlers[1..])
  }

  /** `getBatchTriggerStatus()`: `handlers` are the handler names of the project's
      triggers, or the error `getProjectTriggers` threw. The result is `isActive` and
      `triggerCount`. */
  function BatchTriggerStatus(handlers: Result<seq<string>>): (r: Result<(bool, nat)>)
    ensures handlers.Err? ==> r == Err("バッチトリガー状態の取得に失敗しました: " + handlers.message)
    ensures handlers.Ok? ==> r.Ok? && r.value.1 == multiset(handlers.value)[BatchHandler]
    ensures handlers.Ok? ==> (r.value.0 <==> BatchHandler in handlers.value)
  {
    match handlers
    case Err(e) => Err("バッチトリガー状態の取得に失敗しました: " + e)
    case Ok(hs) => Ok((BatchTriggerCount(hs) > 0, BatchTriggerCount(hs)))
  }
}
