/** The `ReportGenerator` class of src/reportGenerator.ts: the busiest hour and
    weekday, the report table with its section rows, and the data behind the charts.
    Styling, the charts themselves and the PDF export are not modelled. */
module ReportGenerator {
  import opened Text
  import opened Sheets
  import DataProcessor

  // ---------------------------------------------------------------------------
  // The first maximum of a list of counts

  /** What the `forEach` with `if (count > maxCount)` leaves in `(maxIndex, maxCount)`,
      starting from `(0, 0)`. */
  function FirstMaximum(counts: seq<nat>): (r: (nat, nat)) {
    if counts == [] then (0, 0)
    else
      var (k, m) := FirstMaximum(counts[..|counts| - 1]);
      if counts[|counts| - 1] > m then (|counts| - 1, counts[|counts| - 1]) else (k, m)
  }

  /** The reported count is the largest count, and the reported index is the first
      index holding it; with no positive count the result is index 0 and count 0. */
  lemma {:induction false} FirstMaximumFacts(counts: seq<nat>)
    ensures var (k, m) := FirstMaximum(counts);
      (forall j :: 0 <= j < |counts| ==> counts[j] <= m) &&
      (m > 0 ==> k < |counts| && counts[k] == m && forall j :: 0 <= j < k ==> counts[j] < m) &&
      (m == 0 ==> k == 0)
  {
    if counts != [] {
      var init := counts[..|counts| - 1];
      FirstMaximumFacts(init);
      var (k, m) := FirstMaximum(init);
      forall j | 0 <= j < |init|
        ensures counts[j] == init[j]
      {
      }
    }
  }

  /** The label of `getMostActiveHour`: `h:00-(h+1):00 (n投稿)`. */
  function HourLabel(hour: nat, count: nat): string {
    NatToString(hour) + ":00-" + NatToString(hour + 1) + ":00 (" + NatToString(count) + "投稿)"
  }

  /** `getMostActiveHour(hourlyDistribution)`. */
  method GetMostActiveHour(hourly: seq<nat>) returns (maxHour: nat, maxCount: nat, summary: string)
    ensures (maxHour, maxCount) == FirstMaximum(hourly)
    ensures summary == HourLabel(maxHour, maxCount)
  {
    maxCount, maxHour := 0, 0;
    var hour := 0;
    while hour < |hourly|
      invariant hour <= |hourly|
      invariant (maxHour, maxCount) == FirstMaximum(hourly[..hour])
    {
      assert hourly[..hour + 1][..hour] == hourly[..hour];
      var count := hourly[hour];
      if count > maxCount {
        maxCount := count;
        maxHour := hour;
      }
      hour := hour + 1;
    }
    assert hourly[..|hourly|] == hourly;
    summary := HourLabel(maxHour, maxCount);
  }

  // ---------------------------------------------------------------------------
  // The busiest weekday

  /** The weekday counts in the order `Object.entries` lists them. */
  function CountsOf(entries: seq<(string, nat)>): (r: seq<nat>)
    ensures |r| == |entries| && forall j :: 0 <= j < |r| ==> r[j] == entries[j].1
  {
    seq(|entries|, j requires 0 <= j < |entries| => entries[j].1)
  }

  /** The entries of `analyzePostingTimes`'s `dailyDistribution`, Sunday first. */
  function DailyEntries(daily: seq<nat>): (r: seq<(string, nat)>)
    requires |daily| == 7
    ensures |r| == 7 && forall d :: 0 <= d < 7 ==> r[d] == (DataProcessor.DayNames[d], daily[d])
  {
    seq(7, d requires 0 <= d < 7 => (DataProcessor.DayNames[d], daily[d]))
  }

  /** `dayNames[day]` of `getMostActiveDay`. */
  function JapaneseDay(day: string): string {
    match day
    case "Sunday" => "日曜日"
    case "Monday" => "月曜日"
    case "Tuesday" => "火曜日"
    case "Wednesday" => "水曜日"
    case "Thursday" => "木曜日"
    case "Friday" => "金曜日"
    case "Saturday" => "土曜日"
    case _ => ""
  }

  /** The label of `getMostActiveDay`: `dayNames[maxDay] || maxDay`, then the count. */
  function DayLabel(day: string, count: nat): string {
    OrElse(JapaneseDay(day), day) + " (" + NatToString(count) + "投稿)"
  }

  /** The weekday `getMostActiveDay` settles on: the first with the largest positive
      count, `''` when no count is positive. */
  function MostActiveDayOf(entries: seq<(string, nat)>): (r: (string, nat)) {
    var (k, m) := FirstMaximum(CountsOf(entries));
    FirstMaximumFacts(CountsOf(entries));
    if m == 0 then ("", 0) else (entries[k].0, m)
  }

  /** `getMostActiveDay(dailyDistribution)`. */
  method GetMostActiveDay(daily: seq<(string, nat)>) returns (maxDay: string, maxCount: nat, summary: string)
    ensures (maxDay, maxCount) == MostActiveDayOf(daily)
    ensures summary == DayLabel(maxDay, maxCount)
  {
    maxCount, maxDay := 0, "";
    ghost var maxIndex: nat := 0;
    var i := 0;
    while i < |daily|
      invariant i <= |daily|
      invariant (maxIndex, maxCount) == FirstMaximum(CountsOf(daily)[..i])
      invariant maxCount == 0 || maxIndex < i
      invariant maxDay == if maxCount == 0 then "" else daily[maxIndex].0
    {
      assert CountsOf(daily)[..i + 1][..i] == CountsOf(daily)[..i];
      FirstMaximumFacts(CountsOf(daily)[..i]);
      var (day, count) := daily[i];
      if count > maxCount {
        maxCount := count;
        maxDay := day;
        maxIndex := i;
      }
      i := i + 1;
    }
    assert CountsOf(daily)[..|daily|] == CountsOf(daily);
    summary := DayLabel(maxDay, maxCount);
  }

  /** On the seven weekday entries of an analysis, the busiest day is a weekday named
      in English, shown in Japanese, unless no post has a time. */
  lemma MostActiveWeekday(daily: seq<nat>)
    requires |daily| == 7
    ensures var (day, count) := MostActiveDayOf(DailyEntries(daily));
      (count == 0 <==> forall d :: 0 <= d < 7 ==> daily[d] == 0) &&
      (count > 0 ==> day in DataProcessor.DayNames && JapaneseDay(day) != "")
  {
    var entries := DailyEntries(daily);
    FirstMaximumFacts(CountsOf(entries));
    var (k, m) := FirstMaximum(CountsOf(entries));
    if m > 0 {
      assert entries[k].0 == DataProcessor.DayNames[k];
    } else {
      assert forall d :: 0 <= d < 7 ==> daily[d] == CountsOf(entries)[d];
    }
  }

  // ---------------------------------------------------------------------------
  // The report table

  const ReportSheetName := "分析レポート"

  /** A row with a label in the first of the four columns. */
  function Line(name: string): Row {
    [Str(name), Blank, Blank, Blank]
  }

  /** A row with a label and a value. */
  function Stat(name: string, value: real): Row {
    [Str(name), Num(value), Blank, Blank]
  }

  /** `reportData` of `generateReportContent`; `generatedAt` is the formatted date and
      the two labels are those of the busiest hour and weekday. */
  function ReportData(a: DataProcessor.Analysis, generatedAt: string, hourLabel: string, dayLabel: string): seq<Row> {
    [ Line("Threads投稿分析レポート"),
      Line("生成日時: " + generatedAt),
      Line(""),
      Line("■ 基本統計"),
      Stat("総投稿数", a.totalPosts as real),
      Stat("テキスト投稿", a.postsByType.text as real),
      Stat("画像投稿", a.postsByType.image as real),
      Stat("動画投稿", a.postsByType.video as real),
      Stat("カルーセル投稿", a.postsByType.carousel as real),
      Line(""),
      Line("■ エンゲージメント統計"),
      Stat("総いいね数", a.engagementStats.totalLikes as real),
      Stat("総返信数", a.engagementStats.totalReplies as real),
      Stat("平均いいね数", a.engagementStats.averageLikes),
      Stat("平均返信数", a.engagementStats.averageReplies),
      Stat("最大いいね数", a.engagementStats.maxLikes as real),
      Stat("最大返信数", a.engagementStats.maxReplies as real),
      Line(""),
      Line("■ コンテンツ分析"),
      [Str("平均テキスト長"), Num(a.contentAnalysis.averageTextLength as real), Str("文字"), Blank],
      Stat("ハッシュタグ総数", a.contentAnalysis.hashtagCount as real),
      Stat("メンション総数", a.contentAnalysis.mentionCount as real),
      Stat("URL総数", a.contentAnalysis.urlCount as real),
      Line(""),
      Line("■ 投稿時間分析"),
      [Str("最も投稿の多い時間帯"), Str(hourLabel), Blank, Blank],
      [Str("最も投稿の多い曜日"), Str(dayLabel), Blank, Blank]
    ]
  }

  /** The rows `formatReportSheet` styles as section headings. */
  const SectionRows: seq<nat> := [4, 11, 19, 25]

  /** A row whose first cell begins with '■'. */
  predicate IsHeading(row: Row) {
    var c := CellAt(row, 0);
    c.Str? && |c.s| > 0 && c.s[0] == '■'
  }

  /** The table fills a range of 27 rows by 4 columns. */
  lemma ReportShape(a: DataProcessor.Analysis, generatedAt: string, hourLabel: string, dayLabel: string)
    ensures var r := ReportData(a, generatedAt, hourLabel, dayLabel);
      |r| == 27 && forall i :: 0 <= i < |r| ==> |r[i]| == 4
  {
  }

  /** The styled section rows are exactly the heading rows of the table. */
  lemma SectionRowsAreHeadings(a: DataProcessor.Analysis, generatedAt: string, hourLabel: string, dayLabel: string)
    ensures var r := ReportData(a, generatedAt, hourLabel, dayLabel);
      forall n :: 1 <= n <= |r| ==> (n in SectionRows <==> IsHeading(r[n - 1]))
  {
    var r := ReportData(a, generatedAt, hourLabel, dayLabel);
    assert ("生成日時: " + generatedAt)[0] == '生';
    forall n | 1 <= n <= |r|
      ensures n in SectionRows <==> IsHeading(r[n - 1])
    {
    }
  }

  /** `createReportSheet` and `generateReportContent`: a new report sheet holding the
      table, with the busiest hour and weekday of the analysis. */
  method GenerateReportContent(a: DataProcessor.Analysis, generatedAt: string) returns (sheet: Sheet)
    ensures fresh(sheet)
    ensures var (h, hc) := FirstMaximum(a.hourly);
      var (d, dc) := MostActiveDayOf(if |a.daily| == 7 then DailyEntries(a.daily) else []);
      sheet.rows == ReportData(a, generatedAt, HourLabel(h, hc), DayLabel(d, dc))
  {
    sheet := new Sheet([]);
    var _, _, hourLabel := GetMostActiveHour(a.hourly);
    var entries := if |a.daily| == 7 then DailyEntries(a.daily) else [];
    var _, _, dayLabel := GetMostActiveDay(entries);
    sheet.AppendRows(ReportData(a, generatedAt, hourLabel, dayLabel));
  }

  // ---------------------------------------------------------------------------
  // Chart data

  /** `chartData` of `createPostTypeChart`. */
  function PostTypeChartData(c: DataProcessor.TypeCounts): (r: seq<Row>)
    ensures |r| == 5 && forall i :: 0 <= i < 5 ==> |r[i]| == 2
  {
    [ [Str("投稿タイプ"), Str("投稿数")],
      [Str("テキスト"), Num(c.text as real)],
      [Str("画像"), Num(c.image as real)],
      [Str("動画"), Num(c.video as real)],
      [Str("カルーセル"), Num(c.carousel as real)] ]
  }

  /** `chartData` of `createHourlyChart`: a header and one row per hour. */
  method HourlyChartData(hourly: seq<nat>) returns (chartData: seq<Row>)
    ensures |chartData| == |hourly| + 1
    ensures chartData[0] == [Str("時間"), Str("投稿数")]
    ensures forall h :: 0 <= h < |hourly| ==> chartData[h + 1] == [Str(NatToString(h) + ":00"), Num(hourly[h] as real)]
  {
    chartData := [[Str("時間"), Str("投稿数")]];
    var hour := 0;
    while hour < |hourly|
      invariant hour <= |hourly| && |chartData| == hour + 1
      invariant chartData[0] == [Str("時間"), Str("投稿数")]
      invariant forall h :: 0 <= h < hour ==> chartData[h + 1] == [Str(NatToString(h) + ":00"), Num(hourly[h] as real)]
    {
      chartData := chartData + [[Str(NatToString(hour) + ":00"), Num(hourly[hour] as real)]];
      hour := hour + 1;
    }
  }

  /** `dayNames[day]` of `createDailyChart`. */
  function ShortJapaneseDay(day: string): string {
    match day
    case "Sunday" => "日"
    case "Monday" => "月"
    case "Tuesday" => "火"
    case "Wednesday" => "水"
    case "Thursday" => "木"
    case "Friday" => "金"
    case "Saturday" => "土"
    case _ => ""
  }

  /** `chartData` of `createDailyChart`: a header and one row per entry, the name in
      Japanese when it is a weekday's, as given otherwise. */
  method DailyChartData(daily: seq<(string, nat)>) returns (chartData: seq<Row>)
    ensures |chartData| == |daily| + 1
    ensures chartData[0] == [Str("曜日"), Str("投稿数")]
    ensures forall i :: 0 <= i < |daily| ==>
      chartData[i + 1] == [Str(OrElse(ShortJapaneseDay(daily[i].0), daily[i].0)), Num(daily[i].1 as real)]
  {
    chartData := [[Str("曜日"), Str("投稿数")]];
    var i := 0;
    while i < |daily|
      invariant i <= |daily| && |chartData| == i + 1
      invariant chartData[0] == [Str("曜日"), Str("投稿数")]
      invariant forall j :: 0 <= j < i ==>
        chartData[j + 1] == [Str(OrElse(ShortJapaneseDay(daily[j].0), daily[j].0)), Num(daily[j].1 as real)]
    {
      var (day, count) := daily[i];
      chartData := chartData + [[Str(OrElse(ShortJapaneseDay(day), day)), Num(count as real)]];
      i := i + 1;
    }
  }

  /** On an analysis's weekday entries the daily chart names the seven days in
      Japanese, Sunday first, and is never empty-named. */
  lemma DailyChartNames(d: nat)
    requires d < 7
    ensures ShortJapaneseDay(DataProcessor.DayNames[d]) != ""
    ensures ShortJapaneseDay(DataProcessor.DayNames[d]) == ["日", "月", "火", "水", "木", "金", "土"][d]
  {
  }
}
