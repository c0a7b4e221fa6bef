/** The `DataProcessor` class of src_backup/dataProcessor.ts: counts by media type,
    engagement totals and maxima, the hour and weekday histograms, and the content
    counts with the ten most frequent words. */
module DataProcessor {
  import opened Common
  import opened Text

  type Hour = h: nat | h < 24
  type Weekday = d: nat | d < 7

  /** A post's `timestamp`: absent (falsy), one that `new Date` cannot read, or the
      local hour and weekday (`getDay`, 0 for Sunday) of a valid one. */
  datatype Timestamp = NoTimestamp | InvalidDate | Local(hour: Hour, day: Weekday)

  /** A post as the analysis reads it; an absent count is 0, an absent text empty. */
  datatype Post = Post(mediaType: string, likeCount: nat, replyCount: nat, timestamp: Timestamp, text: string)

  // ---------------------------------------------------------------------------
  // Counts by media type

  datatype TypeCounts = TypeCounts(text: nat, image: nat, video: nat, carousel: nat)

  /** How many posts have the media type `t`. */
  function CountType(posts: seq<Post>, t: string): nat {
    if posts == [] then 0 else CountType(posts[..|posts| - 1], t) + (if posts[|posts| - 1].mediaType == t then 1 else 0)
  }

  predicate KnownType(t: string) {
    t == "TEXT" || t == "IMAGE" || t == "VIDEO" || t == "CAROUSEL_ALBUM"
  }

  /** How many posts have none of the four media types. */
  function CountOther(posts: seq<Post>): nat {
    if posts == [] then 0 else CountOther(posts[..|posts| - 1]) + (if KnownType(posts[|posts| - 1].mediaType) then 0 else 1)
  }

  /** `categorizePostsByType(posts)`. */
  method CategorizePostsByType(posts: seq<Post>) returns (c: TypeCounts)
    ensures c == TypeCounts(CountType(posts, "TEXT"), CountType(posts, "IMAGE"), CountType(posts, "VIDEO"),
                            CountType(posts, "CAROUSEL_ALBUM"))
  {
    c := TypeCounts(0, 0, 0, 0);
    var i := 0;
    while i < |posts|
      invariant i <= |posts|
      invariant c == TypeCounts(CountType(posts[..i], "TEXT"), CountType(posts[..i], "IMAGE"),
                                CountType(posts[..i], "VIDEO"), CountType(posts[..i], "CAROUSEL_ALBUM"))
    {
      assert posts[..i + 1][..i] == posts[..i];
      match posts[i].mediaType {
        case "TEXT" => c := c.(text := c.text + 1);
        case "IMAGE" => c := c.(image := c.image + 1);
        case "VIDEO" => c := c.(video := c.video + 1);
        case "CAROUSEL_ALBUM" => c := c.(carousel := c.carousel + 1);
        case _ =>
      }
      i := i + 1;
    }
    assert posts[..|posts|] == posts;
  }

  /** Each post falls in at most one of the four counters, and the posts of any other
      type in none: the counters and the others add up to the number of posts. */
  lemma {:induction false} TypeCountsAddUp(posts: seq<Post>)
    ensures CountType(posts, "TEXT") + CountType(posts, "IMAGE") + CountType(posts, "VIDEO")
      + CountType(posts, "CAROUSEL_ALBUM") + CountOther(posts) == |posts|
  {
    if posts != [] {
      TypeCountsAddUp(posts[..|posts| - 1]);
    }
  }

  // ---------------------------------------------------------------------------
  // Engagement

  function Likes(p: Post): nat { p.likeCount }
  function Replies(p: Post): nat { p.replyCount }

  /** The sum of `f` over the posts. */
  function Total(posts: seq<Post>, f: Post -> nat): nat {
    if posts == [] then 0 else Total(posts[..|posts| - 1], f) + f(posts[|posts| - 1])
  }

  /** The largest `f` over the posts, 0 for none. */
  function Largest(posts: seq<Post>, f: Post -> nat): nat {
    if posts == [] then 0
    else
      var m := Largest(posts[..|posts| - 1], f);
      if f(posts[|posts| - 1]) > m then f(posts[|posts| - 1]) else m
  }

  /** `Math.round((total / n) * 100) / 100`. */
  function Average2(total: nat, n: nat): (a: real)
    requires n > 0
    ensures total as real / n as real - 0.005 < a <= total as real / n as real + 0.005
  {
    Round(total as real / n as real * 100.0) as real / 100.0
  }

  datatype EngagementStats = EngagementStats(totalLikes: nat, totalReplies: nat, averageLikes: real,
                                             averageReplies: real, maxLikes: nat, maxReplies: nat)

  /** `calculateEngagementStats(posts)`. */
  method CalculateEngagementStats(posts: seq<Post>) returns (s: EngagementStats)
    ensures posts == [] ==> s == EngagementStats(0, 0, 0.0, 0.0, 0, 0)
    ensures s.totalLikes == Total(posts, Likes) && s.totalReplies == Total(posts, Replies)
    ensures s.maxLikes == Largest(posts, Likes) && s.maxReplies == Largest(posts, Replies)
    ensures posts != [] ==> s.averageLikes == Average2(s.totalLikes, |posts|) && s.averageReplies == Average2(s.totalReplies, |posts|)
  {
    s := EngagementStats(0, 0, 0.0, 0.0, 0, 0);
    if |posts| == 0 {
      return;
    }
    var i := 0;
    while i < |posts|
      invariant i <= |posts|
      invariant s == EngagementStats(Total(posts[..i], Likes), Total(posts[..i], Replies), 0.0, 0.0,
                                     Largest(posts[..i], Likes), Largest(posts[..i], Replies))
    {
      assert posts[..i + 1][..i] == posts[..i];
      var likes := posts[i].likeCount;
      var replies := posts[i].replyCount;
      s := s.(totalLikes := s.totalLikes + likes, totalReplies := s.totalReplies + replies);
      if likes > s.maxLikes {
        s := s.(maxLikes := likes);
      }
      if replies > s.maxReplies {
        s := s.(maxReplies := replies);
      }
      i := i + 1;
    }
    assert posts[..|posts|] == posts;
    s := s.(averageLikes := Average2(s.totalLikes, |posts|), averageReplies := Average2(s.totalReplies, |posts|));
  }

  /** The maximum is at least every post's value. */
  lemma {:induction false} LargestIsUpperBound(posts: seq<Post>, f: Post -> nat)
    ensures forall k :: 0 <= k < |posts| ==> f(posts[k]) <= Largest(posts, f)
  {
    if posts != [] {
      var init := posts[..|posts| - 1];
      LargestIsUpperBound(init, f);
      forall k | 0 <= k < |posts| - 1
        ensures f(posts[k]) <= Largest(posts, f)
      {
        assert posts[k] == init[k];
      }
    }
  }

  /** The maximum of a non-empty list is one of its values. */
  lemma {:induction false} LargestIsAttained(posts: seq<Post>, f: Post -> nat)
    requires posts != []
    ensures exists k :: 0 <= k < |posts| && f(posts[k]) == Largest(posts, f)
  {
    var init := posts[..|posts| - 1];
    var last := |posts| - 1;
    if init != [] && f(posts[last]) <= Largest(init, f) {
      LargestIsAttained(init, f);
      var k :| 0 <= k < |init| && f(init[k]) == Largest(init, f);
      assert posts[k] == init[k];
    } else {
      assert f(posts[last]) == Largest(posts, f);
    }
  }

  /** The total is at most the number of posts times the maximum: no average exceeds
      the maximum. */
  lemma {:induction false} TotalAtMostCountTimesLargest(posts: seq<Post>, f: Post -> nat)
    ensures Total(posts, f) <= |posts| * Largest(posts, f)
  {
    if posts != [] {
      var init := posts[..|posts| - 1];
      TotalAtMostCountTimesLargest(init, f);
      var m, n := Largest(init, f), Largest(posts, f);
      assert m <= n;
      assert |init| * m <= |init| * n by {
        ScaleAtMost(|init|, m, n);
      }
      assert |posts| * n == |init| * n + n;
    }
  }

  /** Multiplying keeps order. */
  lemma {:induction false} ScaleAtMost(k: nat, a: nat, b: nat)
    requires a <= b
    ensures k * a <= k * b
  {
    if k > 0 {
      ScaleAtMost(k - 1, a, b);
    }
  }

  // ---------------------------------------------------------------------------
  // Posting times

  /** How many posts were made at hour `h`. */
  function HourCount(posts: seq<Post>, h: Hour): nat {
    if posts == [] then 0
    else
      HourCount(posts[..|posts| - 1], h)
      + (var t := posts[|posts| - 1].timestamp; if t.Local? && t.hour == h then 1 else 0)
  }

  /** How many posts were made on weekday `d`. */
  function DayCount(posts: seq<Post>, d: Weekday): nat {
    if posts == [] then 0
    else
      DayCount(posts[..|posts| - 1], d)
      + (var t := posts[|posts| - 1].timestamp; if t.Local? && t.day == d then 1 else 0)
  }

  /** How many posts have a valid timestamp. */
  function TimedCount(posts: seq<Post>): nat {
    if posts == [] then 0 else TimedCount(posts[..|posts| - 1]) + (if posts[|posts| - 1].timestamp.Local? then 1 else 0)
  }

  /** The keys of the weekday counts, by `getDay`. */
  const DayNames := ["Sunday", "Monday", "Tuesday", "Wednesday", "Thursday", "Friday", "Saturday"]

  /** `analyzePostingTimes(posts)`: `hourly[h]` is `hourlyDistribution[h]` and
      `daily[d]` the count under `DayNames[d]`. A timestamp `new Date` cannot read
      updates none of these buckets: its hour and weekday are `NaN`, so the engine
      adds a `NaN` property to the hour array and an `undefined` weekday key, which
      are not represented here. */
  method AnalyzePostingTimes(posts: seq<Post>) returns (hourly: array<nat>, daily: array<nat>)
    ensures fresh(hourly) && fresh(daily) && hourly.Length == 24 && daily.Length == 7
    ensures forall h: Hour :: hourly[h] == HourCount(posts, h)
    ensures forall d: Weekday :: daily[d] == DayCount(posts, d)
  {
    hourly := new nat[24];
    for i := 0 to 24
      invariant forall h :: 0 <= h < i ==> hourly[h] == 0
    {
      hourly[i] := 0;
    }
    daily := new nat[7](_ => 0);
    var i := 0;
    while i < |posts|
      invariant i <= |posts|
      invariant forall h: Hour :: hourly[h] == HourCount(posts[..i], h)
      invariant forall d: Weekday :: daily[d] == DayCount(posts[..i], d)
    {
      assert posts[..i + 1][..i] == posts[..i];
      var t := posts[i].timestamp;
      if t.Local? {
        hourly[t.hour] := hourly[t.hour] + 1;
        daily[t.day] := daily[t.day] + 1;
      }
      i := i + 1;
    }
    assert posts[..|posts|] == posts;
  }

  /** The posts of the first `n` hours. */
  function HourSum(posts: seq<Post>, n: nat): nat
    requires n <= 24
  {
    if n == 0 then 0 else HourSum(posts, n - 1) + HourCount(posts, n - 1)
  }

  /** The posts of the first `n` weekdays. */
  function DaySum(posts: seq<Post>, n: nat): nat
    requires n <= 7
  {
    if n == 0 then 0 else DaySum(posts, n - 1) + DayCount(posts, n - 1)
  }

  /** One more post adds one to the hours below `n` exactly when its hour is one. */
  lemma {:induction false} HourSumStep(posts: seq<Post>, n: nat)
    requires posts != [] && n <= 24
    ensures var t := posts[|posts| - 1].timestamp;
      HourSum(posts, n) == HourSum(posts[..|posts| - 1], n) + (if t.Local? && t.hour < n then 1 else 0)
  {
    if n > 0 {
      HourSumStep(posts, n - 1);
    }
  }

  lemma {:induction false} DaySumStep(posts: seq<Post>, n: nat)
    requires posts != [] && n <= 7
    ensures var t := posts[|posts| - 1].timestamp;
      DaySum(posts, n) == DaySum(posts[..|posts| - 1], n) + (if t.Local? && t.day < n then 1 else 0)
  {
    if n > 0 {
      DaySumStep(posts, n - 1);
    }
  }

  lemma {:induction false} EmptyHistograms(posts: seq<Post>, n: nat, m: nat)
    requires posts == [] && n <= 24 && m <= 7
    ensures HourSum(posts, n) == 0 && DaySum(posts, m) == 0
  {
    if n > 0 {
      EmptyHistograms(posts, n - 1, m);
    }
    if m > 0 {
      EmptyHistograms(posts, n, m - 1);
    }
  }

  /** Both histograms add up to the number of posts with a valid timestamp: each such
      post is in exactly one hour and one weekday. */
  lemma {:induction false} HistogramsAddUp(posts: seq<Post>)
    ensures HourSum(posts, 24) == TimedCount(posts)
    ensures DaySum(posts, 7) == TimedCount(posts)
  {
    if posts != [] {
      var init := posts[..|posts| - 1];
      HistogramsAddUp(init);
      HourSumStep(posts, 24);
      DaySumStep(posts, 7);
      var t := posts[|posts| - 1].timestamp;
      assert TimedCount(posts) == TimedCount(init) + (if t.Local? then 1 else 0);
      assert t.Local? ==> t.hour < 24 && t.day < 7;
    } else {
      EmptyHistograms(posts, 24, 7);
    }
  }

  // ---------------------------------------------------------------------------
  // Content

  /** The end of the run of `\w` characters from `j`. */
  function WordEnd(s: string, j: nat): (e: nat)
    requires j <= |s|
    ensures j <= e <= |s| && (e == |s| || !IsWord(Js, s[e]))
    ensures forall k :: j <= k < e ==> IsWord(Js, s[k])
    decreases |s| - j
  {
    if j < |s| && IsWord(Js, s[j]) then WordEnd(s, j + 1) else j
  }

  /** The number of matches of `/<lead>\w+/g` in `s[i..]`, found left to right. */
  function LeadMatches(s: string, i: nat, lead: char): nat
    requires i <= |s|
    decreases |s| - i
  {
    if i == |s| then 0
    else if s[i] == lead && i + 1 < |s| && IsWord(Js, s[i + 1]) then 1 + LeadMatches(s, WordEnd(s, i + 1), lead)
    else LeadMatches(s, i + 1, lead)
  }

  /** The positions of `s[i..]` holding `lead` before a `\w` character. */
  function LeadPositions(s: string, i: nat, lead: char): nat
    requires i <= |s|
    decreases |s| - i
  {
    if i == |s| then 0
    else (if s[i] == lead && i + 1 < |s| && IsWord(Js, s[i + 1]) then 1 else 0) + LeadPositions(s, i + 1, lead)
  }

  /** The `#\w+` and `@\w+` counts are the number of `#` (or `@`) signs directly
      before a word character: a match never swallows another sign. */
  lemma {:induction false} LeadMatchesArePositions(s: string, i: nat, lead: char)
    requires i <= |s| && !IsWord(Js, lead)
    ensures LeadMatches(s, i, lead) == LeadPositions(s, i, lead)
    decreases |s| - i
  {
    if i < |s| {
      if s[i] == lead && i + 1 < |s| && IsWord(Js, s[i + 1]) {
        var e := WordEnd(s, i + 1);
        LeadMatchesArePositions(s, e, lead);
        NoLeadInWord(s, i + 1, e, lead);
      } else {
        LeadMatchesArePositions(s, i + 1, lead);
      }
    }
  }

  /** A run of word characters holds no sign position. */
  lemma {:induction false} NoLeadInWord(s: string, j: nat, e: nat, lead: char)
    requires j <= e <= |s| && !IsWord(Js, lead)
    requires forall k :: j <= k < e ==> IsWord(Js, s[k])
    ensures LeadPositions(s, j, lead) == LeadPositions(s, e, lead)
    decreases e - j
  {
    if j < e {
      NoLeadInWord(s, j + 1, e, lead);
    }
  }

  /** The end of the run of characters outside `\s` from `j`. */
  function NonSpaceEnd(s: string, j: nat): (e: nat)
    requires j <= |s|
    ensures j <= e <= |s| && (e == |s| || IsSpace(Js, s[e]))
    decreases |s| - j
  {
    if j < |s| && !IsSpace(Js, s[j]) then NonSpaceEnd(s, j + 1) else j
  }

  /** Where a match of `https?:\/\/[^\s]+` starting at `i` ends. */
  function UrlAt(s: string, i: nat): (e: Option<nat>)
    requires i <= |s|
    ensures e.Some? ==> i + 8 <= e.value <= |s|
  {
    if At(s, i, "https://") && i + 8 < |s| && !IsSpace(Js, s[i + 8]) then Some(NonSpaceEnd(s, i + 8))
    else if At(s, i, "http://") && i + 7 < |s| && !IsSpace(Js, s[i + 7]) then Some(NonSpaceEnd(s, i + 7))
    else None
  }

  /** The number of matches of `/https?:\/\/[^\s]+/g` in `s[i..]`. */
  function UrlMatches(s: string, i: nat): nat
    requires i <= |s|
    decreases |s| - i
  {
    if i == |s| then 0
    else match UrlAt(s, i)
      case Some(e) => 1 + UrlMatches(s, e)
      case None => UrlMatches(s, i + 1)
  }

  /** Every URL match takes at least eight characters (`http://` and one more). */
  lemma {:induction false} UrlMatchesBound(s: string, i: nat)
    requires i <= |s|
    ensures UrlMatches(s, i) * 8 <= |s| - i
    decreases |s| - i
  {
    if i < |s| {
      match UrlAt(s, i) {
        case Some(e) =>
          UrlMatchesBound(s, e);
        case None =>
          UrlMatchesBound(s, i + 1);
      }
    }
  }

  /** A match starts with `http`: a text in which `http` never occurs holds no URL. */
  lemma {:induction false} UrlNeedsScheme(s: string, i: nat)
    requires i <= |s|
    requires forall k :: i <= k <= |s| ==> !At(s, k, "http")
    ensures UrlMatches(s, i) == 0
    decreases |s| - i
  {
    if i < |s| {
      UrlStartsWithScheme(s, i);
      UrlNeedsScheme(s, i + 1);
    }
  }

  lemma UrlStartsWithScheme(s: string, i: nat)
    requires i <= |s|
    ensures UrlAt(s, i).Some? ==> At(s, i, "http")
  {
    if At(s, i, "https://") {
      assert s[i..i + 8][..4] == s[i..i + 4];
    } else if At(s, i, "http://") {
      assert s[i..i + 7][..4] == s[i..i + 4];
    }
  }

  /** Every `#\w+` (or `@\w+`) match takes at least two characters. */
  lemma {:induction false} LeadMatchesBound(s: string, i: nat, lead: char)
    requires i <= |s|
    ensures LeadMatches(s, i, lead) * 2 <= |s| - i
    decreases |s| - i
  {
    if i < |s| {
      if s[i] == lead && i + 1 < |s| && IsWord(Js, s[i + 1]) {
        LeadMatchesBound(s, WordEnd(s, i + 1), lead);
      } else {
        LeadMatchesBound(s, i + 1, lead);
      }
    }
  }

  /** `toLowerCase()` as far as `\w` can tell: ASCII capitals, and the two characters
      outside ASCII whose lower case holds an ASCII letter (U+0130 and the Kelvin sign
      U+212A). Every other character either has no lower case or keeps a lower case
      outside ASCII, which splits words the same way. */
  function LowerChar(c: char): string {
    if 'A' <= c <= 'Z' then [(c as int + 32) as char]
    else if c == 'İ' then ['i', '̇']
    else if c == 'K' then ['k']
    else [c]
  }

  function Lower(s: string): string {
    if s == [] then [] else LowerChar(s[0]) + Lower(s[1..])
  }

  /** The matches of `/\b\w+\b/g` in `s[i..]`: the longest runs of word characters. */
  function Words(s: string, i: nat): (r: seq<string>)
    requires i <= |s|
    ensures forall w :: w in r ==> w != [] && forall k :: 0 <= k < |w| ==> IsWord(Js, w[k])
    decreases |s| - i
  {
    if i == |s| then []
    else if IsWord(Js, s[i]) then
      var e := WordEnd(s, i);
      [s[i..e]] + Words(s, e)
    else Words(s, i + 1)
  }

  /** The word counts, with the words in the order they were first counted. */
  datatype Frequencies = Frequencies(count: map<string, nat>, order: seq<string>)

  /** A word `wordFrequency[word] = … + 1` stores: longer than three characters, and not
      `__proto__`, whose assignment sets the prototype slot and stores nothing. */
  predicate Countable(word: string) {
    |word| > 3 && word != "__proto__"
  }

  /** Frequencies are consistent: the listed words are the counted ones, each once,
      each longer than three characters and seen at least once. */
  ghost predicate WellCounted(f: Frequencies) {
    (forall w :: w in f.count <==> w in f.order) &&
    (forall a, b :: 0 <= a < b < |f.order| ==> f.order[a] != f.order[b]) &&
    (forall w :: w in f.count ==> Countable(w) && f.count[w] >= 1)
  }

  /** `wordFrequency[word] = (wordFrequency[word] || 0) + 1` for a word longer than
      three characters. */
  function AddWord(f: Frequencies, word: string): Frequencies {
    if Countable(word) then
      if word in f.count then f.(count := f.count[word := f.count[word] + 1])
      else Frequencies(f.count[word := 1], f.order + [word])
    else f
  }

  function AddWords(f: Frequencies, words: seq<string>): Frequencies {
    if words == [] then f else AddWord(AddWords(f, words[..|words| - 1]), words[|words| - 1])
  }

  /** How often `w` occurs in `words`. */
  function Occurrences(words: seq<string>, w: string): nat {
    if words == [] then 0 else Occurrences(words[..|words| - 1], w) + (if words[|words| - 1] == w then 1 else 0)
  }

  /** The counts are the occurrences of each countable word, added to what was counted
      before, and the frequencies stay consistent. */
  lemma {:induction false} AddWordsCounts(f: Frequencies, words: seq<string>, w: string)
    requires WellCounted(f)
    ensures WellCounted(AddWords(f, words))
    ensures Countable(w) ==> (w in AddWords(f, words).count <==> w in f.count || Occurrences(words, w) > 0)
    ensures Countable(w) && w in AddWords(f, words).count ==>
      AddWords(f, words).count[w] == (if w in f.count then f.count[w] else 0) + Occurrences(words, w)
  {
    if words != [] {
      AddWordsCounts(f, words[..|words| - 1], w);
      AddWordConsistent(AddWords(f, words[..|words| - 1]), words[|words| - 1]);
    }
  }

  lemma AddWordConsistent(f: Frequencies, word: string)
    requires WellCounted(f)
    ensures WellCounted(AddWord(f, word))
  {
    if Countable(word) && word !in f.count {
      var n := AddWord(f, word);
      forall a, b | 0 <= a < b < |n.order|
        ensures n.order[a] != n.order[b]
      {
        if b == |f.order| {
          assert f.order[a] in f.count;
        }
      }
    }
  }

  // ---------------------------------------------------------------------------
  // The order of `Object.keys`: array indices ascending, then the other keys in the
  // order they were added (section 10.1.11.1 of ECMA-262, OrdinaryOwnPropertyKeys)

  /** A canonical array index: the decimal text of a number below 2^32 - 1, without
      leading zeros. */
  predicate IsArrayIndex(w: string) {
    |w| > 0 && (forall k :: 0 <= k < |w| ==> IsDigit(w[k])) && (w[0] != '0' || |w| == 1)
    && DigitsValue(w) < 0xFFFF_FFFF
  }

  /** The keys that are array indices, in the order added. */
  function IndexKeys(order: seq<string>): (r: seq<string>)
    ensures forall w :: w in r ==> IsArrayIndex(w)
  {
    if order == [] then []
    else IndexKeys(order[..|order| - 1]) + (if IsArrayIndex(order[|order| - 1]) then [order[|order| - 1]] else [])
  }

  /** The other keys, in the order added. */
  function NamedKeys(order: seq<string>): (r: seq<string>)
    ensures forall w :: w in r ==> !IsArrayIndex(w)
  {
    if order == [] then []
    else NamedKeys(order[..|order| - 1]) + (if IsArrayIndex(order[|order| - 1]) then [] else [order[|order| - 1]])
  }

  /** Inserting an index before the first one of no smaller value. */
  function InsertByValue(w: string, sorted: seq<string>): (r: seq<string>)
    ensures multiset(r) == multiset(sorted) + multiset{w}
  {
    if sorted == [] || DigitsValue(w) <= DigitsValue(sorted[0]) then [w] + sorted
    else
      assert sorted == [sorted[0]] + sorted[1..];
      [sorted[0]] + InsertByValue(w, sorted[1..])
  }

  function SortByValue(keys: seq<string>): (r: seq<string>)
    ensures multiset(r) == multiset(keys)
  {
    if keys == [] then []
    else
      assert keys == [keys[0]] + keys[1..];
      InsertByValue(keys[0], SortByValue(keys[1..]))
  }

  /** The keys in the order `Object.keys` lists them. */
  function KeyOrder(order: seq<string>): seq<string> {
    SortByValue(IndexKeys(order)) + NamedKeys(order)
  }

  predicate Ascending(keys: seq<string>) {
    forall a, b :: 0 <= a < b < |keys| ==> DigitsValue(keys[a]) <= DigitsValue(keys[b])
  }

  /** `Object.keys` lists each key exactly once. */
  lemma KeyOrderKeeps(order: seq<string>)
    ensures |KeyOrder(order)| == |order|
    ensures forall w :: w in KeyOrder(order) <==> w in order
  {
    KeyOrderIsObjectKeys(order);
    forall w
      ensures w in KeyOrder(order) <==> w in order
    {
      assert w in KeyOrder(order) <==> w in multiset(KeyOrder(order));
      assert w in order <==> w in multiset(order);
    }
    assert |multiset(KeyOrder(order))| == |multiset(order)|;
  }

  /** Splitting the keys into indices and the others loses none and adds none. */
  lemma {:induction false} KeysPartition(order: seq<string>)
    ensures multiset(IndexKeys(order)) + multiset(NamedKeys(order)) == multiset(order)
  {
    if order != [] {
      var init, last := order[..|order| - 1], order[|order| - 1];
      KeysPartition(init);
      assert order == init + [last];
      assert multiset(order) == multiset(init) + multiset{last};
      if IsArrayIndex(last) {
        assert IndexKeys(order) == IndexKeys(init) + [last] && NamedKeys(order) == NamedKeys(init);
      } else {
        assert IndexKeys(order) == IndexKeys(init) && NamedKeys(order) == NamedKeys(init) + [last];
      }
    }
  }

  lemma InsertByValueMembers(w: string, sorted: seq<string>, x: string)
    requires x in InsertByValue(w, sorted)
    ensures x == w || x in sorted
  {
    assert x in multiset(InsertByValue(w, sorted));
  }

  lemma {:induction false} InsertKeepsAscending(w: string, sorted: seq<string>)
    requires Ascending(sorted)
    ensures Ascending(InsertByValue(w, sorted))
  {
    if !(sorted == [] || DigitsValue(w) <= DigitsValue(sorted[0])) {
      InsertKeepsAscending(w, sorted[1..]);
      var rest := InsertByValue(w, sorted[1..]);
      var r := [sorted[0]] + rest;
      assert r == InsertByValue(w, sorted);
      forall a, b | 0 <= a < b < |r|
        ensures DigitsValue(r[a]) <= DigitsValue(r[b])
      {
        if a == 0 {
          assert r[b] in rest;
          InsertByValueMembers(w, sorted[1..], r[b]);
          if r[b] != w {
            var k :| 0 <= k < |sorted[1..]| && sorted[1..][k] == r[b];
            assert sorted[k + 1] == r[b];
          }
        } else {
          assert r[a] == rest[a - 1] && r[b] == rest[b - 1];
        }
      }
    }
  }

  lemma {:induction false} SortIsAscending(keys: seq<string>)
    ensures Ascending(SortByValue(keys))
  {
    if keys != [] {
      SortIsAscending(keys[1..]);
      InsertKeepsAscending(keys[0], SortByValue(keys[1..]));
    }
  }

  /** `Object.keys` lists every key once, the array indices first in ascending order
      of value and the other keys after them. */
  lemma KeyOrderIsObjectKeys(order: seq<string>)
    ensures multiset(KeyOrder(order)) == multiset(order)
    ensures var keys := KeyOrder(order);
      forall a, b :: 0 <= a < b < |keys| && IsArrayIndex(keys[b]) ==>
        IsArrayIndex(keys[a]) && DigitsValue(keys[a]) <= DigitsValue(keys[b])
  {
    KeysPartition(order);
    var indices := SortByValue(IndexKeys(order));
    var keys := KeyOrder(order);
    SortIsAscending(IndexKeys(order));
    forall a, b | 0 <= a < b < |keys| && IsArrayIndex(keys[b])
      ensures IsArrayIndex(keys[a]) && DigitsValue(keys[a]) <= DigitsValue(keys[b])
    {
      assert keys[a] == indices[a] && keys[b] == indices[b];
      assert indices[a] in multiset(IndexKeys(order));
    }
  }

  /** A key added after a word but with the text of an array index is listed first:
      `hello` then `2024` come out as `2024`, `hello`. */
  lemma IndexListedFirst()
    ensures KeyOrder(["hello", "2024"]) == ["2024", "hello"]
  {
    assert ["hello", "2024"][..1] == ["hello"] && ["hello"][..0] == [];
    var w := "2024";
    assert w[..3] == "202" && w[..3][..2] == "20" && w[..3][..2][..1] == "2" && "2"[..0] == [];
    assert DigitOf('2') == 2 && DigitOf('0') == 0 && DigitOf('4') == 4;
    assert DigitsValue("2") == 2;
    assert DigitsValue("20") == 20;
    assert DigitsValue("202") == 202;
    assert DigitsValue("2024") == 2024;
    assert IsArrayIndex("2024") && !IsArrayIndex("hello");
  }

  /** An entry of `commonWords`. */
  datatype WordEntry = WordEntry(word: string, count: nat)

  /** The count of `w`, 0 for a word never counted. */
  function CountOf(f: Frequencies, w: string): nat {
    if w in f.count then f.count[w] else 0
  }

  /** `Object.keys(wordFrequency).map(word => ({ word, count }))`. */
  function Entries(f: Frequencies): seq<WordEntry> {
    var keys := KeyOrder(f.order);
    seq(|keys|, k requires 0 <= k < |keys| => WordEntry(keys[k], CountOf(f, keys[k])))
  }

  /** Inserting an entry before the first entry counted no more often than it. */
  function InsertByCount(e: WordEntry, sorted: seq<WordEntry>): (r: seq<WordEntry>)
    ensures multiset(r) == multiset(sorted) + multiset{e}
    ensures |r| == |sorted| + 1
  {
    if sorted == [] || sorted[0].count <= e.count then [e] + sorted
    else
      assert sorted == [sorted[0]] + sorted[1..];
      [sorted[0]] + InsertByCount(e, sorted[1..])
  }

  /** `.sort((a, b) => b.count - a.count)`, which is stable: most frequent first,
      ties in their listed order. */
  function SortByCount(entries: seq<WordEntry>): (r: seq<WordEntry>)
    ensures multiset(r) == multiset(entries) && |r| == |entries|
  {
    if entries == [] then []
    else
      assert entries == [entries[0]] + entries[1..];
      InsertByCount(entries[0], SortByCount(entries[1..]))
  }

  predicate CountDescending(r: seq<WordEntry>) {
    forall a, b :: 0 <= a < b < |r| ==> r[a].count >= r[b].count
  }

  /** Every entry of an insertion is the inserted one or one of the list's. */
  lemma {:induction false} InsertMembers(e: WordEntry, sorted: seq<WordEntry>, x: WordEntry)
    requires x in InsertByCount(e, sorted)
    ensures x == e || x in sorted
  {
    assert x in multiset(InsertByCount(e, sorted));
  }

  /** Below a head counted more often than `e`, every entry of the insertion into the
      tail is counted no more often than the head. */
  lemma InsertBelowHead(e: WordEntry, sorted: seq<WordEntry>)
    requires CountDescending(sorted) && sorted != [] && sorted[0].count > e.count
    ensures forall x :: x in InsertByCount(e, sorted[1..]) ==> x.count <= sorted[0].count
  {
    forall x | x in InsertByCount(e, sorted[1..])
      ensures x.count <= sorted[0].count
    {
      InsertMembers(e, sorted[1..], x);
      if x != e {
        var k :| 0 <= k < |sorted[1..]| && sorted[1..][k] == x;
        assert sorted[k + 1] == x;
      }
    }
  }

  lemma {:induction false} InsertKeepsDescending(e: WordEntry, sorted: seq<WordEntry>)
    requires CountDescending(sorted)
    ensures CountDescending(InsertByCount(e, sorted))
  {
    if !(sorted == [] || sorted[0].count <= e.count) {
      InsertKeepsDescending(e, sorted[1..]);
      var rest := InsertByCount(e, sorted[1..]);
      InsertBelowHead(e, sorted);
      var r := [sorted[0]] + rest;
      assert r == InsertByCount(e, sorted);
      forall a, b | 0 <= a < b < |r|
        ensures r[a].count >= r[b].count
      {
        if a == 0 {
          assert r[b] in rest;
        } else {
          assert r[a] == rest[a - 1] && r[b] == rest[b - 1];
        }
      }
    }
  }

  lemma {:induction false} SortIsDescending(entries: seq<WordEntry>)
    ensures CountDescending(SortByCount(entries))
  {
    if entries != [] {
      SortIsDescending(entries[1..]);
      InsertKeepsDescending(entries[0], SortByCount(entries[1..]));
    }
  }

  /** Sorting keeps the entries, each as often as it was listed. */
  lemma SortedEntriesMembers(f: Frequencies)
    ensures forall e :: e in SortByCount(Entries(f)) <==> e in Entries(f)
  {
    var entries := Entries(f);
    var sorted := SortByCount(entries);
    forall e
      ensures e in sorted <==> e in entries
    {
      assert e in sorted <==> e in multiset(sorted);
      assert e in entries <==> e in multiset(entries);
    }
  }

  /** `.slice(0, 10)` of the sorted entries. */
  function CommonWords(f: Frequencies): seq<WordEntry> {
    var sorted := SortByCount(Entries(f));
    if |sorted| > 10 then sorted[..10] else sorted
  }

  /** The common words are the first ten counted words (all of them when there are
      fewer), most frequent first. */
  lemma CommonWordsSorted(f: Frequencies)
    ensures |CommonWords(f)| == if |f.order| > 10 then 10 else |f.order|
    ensures CountDescending(CommonWords(f))
  {
    KeyOrderKeeps(f.order);
    SortIsDescending(Entries(f));
  }

  /** Each common word is a counted word longer than three characters, with its count. */
  lemma CommonWordsCounted(f: Frequencies)
    requires WellCounted(f)
    ensures forall e :: e in CommonWords(f) ==> e.word in f.count && e.count == f.count[e.word] && |e.word| > 3
  {
    var sorted := SortByCount(Entries(f));
    var keys := KeyOrder(f.order);
    SortedEntriesMembers(f);
    KeyOrderKeeps(f.order);
    forall e | e in CommonWords(f)
      ensures e.word in f.count && e.count == f.count[e.word] && |e.word| > 3
    {
      var j :| 0 <= j < |CommonWords(f)| && CommonWords(f)[j] == e;
      assert sorted[j] == e;
      assert e in Entries(f);
      var k :| 0 <= k < |keys| && Entries(f)[k] == e;
      assert e.word == keys[k] && keys[k] in keys;
    }
  }

  /** When ten words are shown, no word left out was counted more often than the
      last one shown. */
  lemma CommonWordsAreTop(f: Frequencies)
    requires WellCounted(f)
    requires |CommonWords(f)| == 10
    ensures forall w :: w in f.count && (forall e :: e in CommonWords(f) ==> e.word != w) ==> f.count[w] <= CommonWords(f)[9].count
  {
    var entries := Entries(f);
    var sorted := SortByCount(entries);
    var top := CommonWords(f);
    var keys := KeyOrder(f.order);
    SortIsDescending(entries);
    SortedEntriesMembers(f);
    KeyOrderKeeps(f.order);
    forall w | w in f.count && (forall e :: e in top ==> e.word != w)
      ensures f.count[w] <= top[9].count
    {
      assert w in keys;
      var k :| 0 <= k < |keys| && keys[k] == w;
      var e := entries[k];
      assert e in entries;
      var j :| 0 <= j < |sorted| && sorted[j] == e;
      assert j >= 10;
      assert sorted[9] == top[9];
    }
  }

  /** The content counts summed over the texts so far, with their words. */
  datatype ContentTally = ContentTally(totalTextLength: nat, textPosts: nat, hashtags: nat, mentions: nat,
                                       urls: nat, words: Frequencies)

  /** One more post's text; an empty text counts for nothing (`if (post.text)`). */
  function AddText(t: ContentTally, s: string): ContentTally {
    if s == "" then t
    else
      ContentTally(t.totalTextLength + Utf16Length(s), t.textPosts + 1, t.hashtags + LeadMatches(s, 0, '#'),
                   t.mentions + LeadMatches(s, 0, '@'), t.urls + UrlMatches(s, 0),
                   AddWords(t.words, Words(Lower(s), 0)))
  }

  function ContentOf(posts: seq<Post>): ContentTally {
    if posts == [] then ContentTally(0, 0, 0, 0, 0, Frequencies(map[], []))
    else AddText(ContentOf(posts[..|posts| - 1]), posts[|posts| - 1].text)
  }

  /** No more text posts than posts, each with a length of at least one; a hashtag or
      a mention takes at least two units of length and a URL eight; the word counts
      are consistent. */
  lemma {:induction false} ContentBounds(posts: seq<Post>)
    ensures var t := ContentOf(posts);
      t.textPosts <= |posts| && t.textPosts <= t.totalTextLength &&
      2 * t.hashtags <= t.totalTextLength && 2 * t.mentions <= t.totalTextLength && 8 * t.urls <= t.totalTextLength &&
      WellCounted(t.words)
  {
    if posts != [] {
      var init := posts[..|posts| - 1];
      ContentBounds(init);
      var s := posts[|posts| - 1].text;
      if s != "" {
        LeadMatchesBound(s, 0, '#');
        LeadMatchesBound(s, 0, '@');
        UrlMatchesBound(s, 0);
        AddWordsCounts(ContentOf(init).words, Words(Lower(s), 0), "");
      }
    }
  }

  /** How often `w` is a word of the (lowercased) texts. */
  function OccurrencesIn(posts: seq<Post>, w: string): nat {
    if posts == [] then 0
    else
      var s := posts[|posts| - 1].text;
      OccurrencesIn(posts[..|posts| - 1], w) + (if s == "" then 0 else Occurrences(Words(Lower(s), 0), w))
  }

  /** A word longer than three characters is counted as often as it occurs. */
  lemma {:induction false} WordCountsAreOccurrences(posts: seq<Post>, w: string)
    requires Countable(w)
    ensures CountOf(ContentOf(posts).words, w) == OccurrencesIn(posts, w)
  {
    if posts != [] {
      var init := posts[..|posts| - 1];
      WordCountsAreOccurrences(init, w);
      ContentBounds(init);
      var s := posts[|posts| - 1].text;
      if s != "" {
        AddWordsCounts(ContentOf(init).words, Words(Lower(s), 0), w);
      }
    }
  }

  datatype ContentAnalysis = ContentAnalysis(averageTextLength: int, hashtagCount: nat, mentionCount: nat,
                                             urlCount: nat, commonWords: seq<WordEntry>)

  /** `Math.round(totalTextLength / textPostCount)`, 0 with no text posts. */
  function AverageLength(t: ContentTally): (a: int)
    ensures t.textPosts == 0 ==> a == 0
    ensures t.textPosts > 0 ==>
      t.totalTextLength as real / t.textPosts as real - 0.5 < a as real <= t.totalTextLength as real / t.textPosts as real + 0.5
  {
    if t.textPosts == 0 then 0 else Round(t.totalTextLength as real / t.textPosts as real)
  }

  /** The counting of one post's words, as the inner `forEach`. */
  method CountWords(count: map<string, nat>, order: seq<string>, words: seq<string>)
      returns (count': map<string, nat>, order': seq<string>)
    ensures Frequencies(count', order') == AddWords(Frequencies(count, order), words)
  {
    count', order' := count, order;
    var i := 0;
    while i < |words|
      invariant i <= |words|
      invariant Frequencies(count', order') == AddWords(Frequencies(count, order), words[..i])
    {
      assert words[..i + 1][..i] == words[..i];
      var word := words[i];
      if Countable(word) {
        if word in count' {
          count' := count'[word := count'[word] + 1];
        } else {
          count' := count'[word := 1];
          order' := order' + [word];
        }
      }
      i := i + 1;
    }
    assert words[..|words|] == words;
  }

  /** `analyzeContent(posts)`. */
  method AnalyzeContent(posts: seq<Post>) returns (a: ContentAnalysis)
    ensures var t := ContentOf(posts);
      a == ContentAnalysis(AverageLength(t), t.hashtags, t.mentions, t.urls, CommonWords(t.words))
  {
    var totalTextLength: nat, textPostCount: nat := 0, 0;
    var hashtagCount: nat, mentionCount: nat, urlCount: nat := 0, 0, 0;
    var count: map<string, nat>, order: seq<string> := map[], [];
    var i := 0;
    while i < |posts|
      invariant i <= |posts|
      invariant ContentOf(posts[..i])
        == ContentTally(totalTextLength, textPostCount, hashtagCount, mentionCount, urlCount, Frequencies(count, order))
    {
      assert posts[..i + 1][..i] == posts[..i];
      var text := posts[i].text;
      if text != "" {
        totalTextLength := totalTextLength + Utf16Length(text);
        textPostCount := textPostCount + 1;
        hashtagCount := hashtagCount + LeadMatches(text, 0, '#');
        mentionCount := mentionCount + LeadMatches(text, 0, '@');
        urlCount := urlCount + UrlMatches(text, 0);
        count, order := CountWords(count, order, Words(Lower(text), 0));
      }
      i := i + 1;
    }
    assert posts[..|posts|] == posts;
    var t := ContentTally(totalTextLength, textPostCount, hashtagCount, mentionCount, urlCount, Frequencies(count, order));
    a := ContentAnalysis(AverageLength(t), hashtagCount, mentionCount, urlCount, CommonWords(Frequencies(count, order)));
  }

  /** Every text post has a length of at least one, so their average rounds to at
      least one. */
  lemma AverageLengthAtLeastOne(posts: seq<Post>)
    requires ContentOf(posts).textPosts > 0
    ensures AverageLength(ContentOf(posts)) >= 1
  {
    var t := ContentOf(posts);
    ContentBounds(posts);
    AtLeastOne(t.totalTextLength, t.textPosts);
  }

  lemma AtLeastOne(total: nat, n: nat)
    requires 0 < n <= total
    ensures total as real / n as real >= 1.0
  {
    assert total as real >= n as real;
  }

  /** `analyzePostData(posts)`: the time analysis as `hourly[h]` and `daily[d]`. */
  datatype Analysis = Analysis(totalPosts: nat, postsByType: TypeCounts, engagementStats: EngagementStats,
                               hourly: seq<nat>, daily: seq<nat>, contentAnalysis: ContentAnalysis)

  method AnalyzePostData(posts: seq<Post>) returns (a: Analysis)
    ensures a.totalPosts == |posts|
    ensures a.postsByType == TypeCounts(CountType(posts, "TEXT"), CountType(posts, "IMAGE"), CountType(posts, "VIDEO"),
                                        CountType(posts, "CAROUSEL_ALBUM"))
    ensures a.postsByType.text + a.postsByType.image + a.postsByType.video + a.postsByType.carousel <= |posts|
    ensures var s := a.engagementStats;
      s.totalLikes == Total(posts, Likes) && s.totalReplies == Total(posts, Replies) &&
      s.maxLikes == Largest(posts, Likes) && s.maxReplies == Largest(posts, Replies) &&
      (posts == [] ==> s.averageLikes == 0.0 && s.averageReplies == 0.0) &&
      (posts != [] ==> s.averageLikes == Average2(s.totalLikes, |posts|) && s.averageReplies == Average2(s.totalReplies, |posts|))
    ensures |a.hourly| == 24 && |a.daily| == 7
    ensures forall h: Hour :: a.hourly[h] == HourCount(posts, h)
    ensures forall d: Weekday :: a.daily[d] == DayCount(posts, d)
    ensures var t := ContentOf(posts);
      a.contentAnalysis == ContentAnalysis(AverageLength(t), t.hashtags, t.mentions, t.urls, CommonWords(t.words))
  {
    var byType := CategorizePostsByType(posts);
    TypeCountsAddUp(posts);
    var stats := CalculateEngagementStats(posts);
    var hourly, daily := AnalyzePostingTimes(posts);
    var content := AnalyzeContent(posts);
    a := Analysis(|posts|, byType, stats, hourly[..], daily[..], content);
  }
}
