/** The `DataManager` class of src/dataManager.ts and of its older copy
    src_backup/dataManager.ts, over the script's property store. Both files share the
    settings, history, statistics and clearing code line for line; the members that
    differ between them are marked. The store is a map from keys to the text stored;
    `JSON.stringify`/`JSON.parse` of the values are a `Codec`, and a caller's data is
    passed as the text it is stored as. */
module DataManager {
  import opened Common
  import opened Text

  // ---------------------------------------------------------------------------
  // Reading the store

  /** `getProperty(key)` as a JavaScript condition sees it: a missing key and an empty
      value both count as absent. */
  function Stored(props: map<string, string>, key: string): (r: Option<string>)
    ensures r.Some? <==> key in props && props[key] != ""
    ensures r.Some? ==> r.value == props[key]
  {
    if key in props && props[key] != "" then Some(props[key]) else None
  }

  // ---------------------------------------------------------------------------
  // Settings (lines 15-51)

  datatype Highlights = Highlights(blue: real, yellow: real, red: real)

  datatype Settings = Settings(
    accessToken: string, userId: string, postLimit: int, analysisInterval: int,
    highlightSettings: Highlights)

  const SettingsKey := "SETTINGS"

  /** The settings `getSettings` returns when none are stored. */
  const DefaultSettings := Settings("", "", 25, 12, Highlights(1.5, 2.0, 3.0))

  /** What `getSettings` returns for a store: the stored settings, the defaults when
      none are stored, or an error where `JSON.parse` throws. */
  function SettingsIn(props: map<string, string>, codec: Codec<Settings>): Result<Settings> {
    match Stored(props, SettingsKey)
    case None => Ok(DefaultSettings)
    case Some(text) =>
      match codec.decode(text)
      case None => Err("JSON.parse")
      case Some(s) => Ok(s)
  }

  /** With nothing under `SETTINGS` the defaults come back: postLimit 25,
      analysisInterval 12, highlights 1.5, 2.0 and 3.0. */
  lemma DefaultsWhenAbsent(props: map<string, string>, codec: Codec<Settings>)
    requires SettingsKey !in props || props[SettingsKey] == ""
    ensures SettingsIn(props, codec).Ok?
    ensures SettingsIn(props, codec).value.postLimit == 25 && SettingsIn(props, codec).value.analysisInterval == 12
    ensures SettingsIn(props, codec).value.highlightSettings == Highlights(1.5, 2.0, 3.0)
    ensures SettingsIn(props, codec).value.accessToken == "" && SettingsIn(props, codec).value.userId == ""
  {
  }

  /** Settings saved are the settings read back. */
  lemma SettingsRoundTrip(props: map<string, string>, codec: Codec<Settings>, s: Settings)
    requires Sound(codec)
    ensures SettingsIn(props[SettingsKey := codec.encode(s)], codec) == Ok(s)
  {
    assert codec.decode(codec.encode(s)) == Some(s) && codec.encode(s) != "";
  }

  // ---------------------------------------------------------------------------
  // The bounded history (lines 144-202)

  /** The key list stored under `historyKey`: empty when nothing is stored, an error
      where `JSON.parse` throws. */
  function HistoryIn(props: map<string, string>, codec: Codec<seq<string>>, historyKey: string): Result<seq<string>> {
    match Stored(props, historyKey)
    case None => Ok([])
    case Some(text) =>
      match codec.decode(text)
      case None => Err("JSON.parse")
      case Some(keys) => Ok(keys)
  }

  /** `history.unshift(dataKey)` followed, when the list is longer than `maxItems`, by
      `history.splice(maxItems)`: the keys kept ... */
  function Kept(history: seq<string>, dataKey: string, maxItems: nat): seq<string> {
    var h := [dataKey] + history;
    if |h| > maxItems then h[..maxItems] else h
  }

  /** ... and the keys cut off. */
  function Removed(history: seq<string>, dataKey: string, maxItems: nat): seq<string> {
    var h := [dataKey] + history;
    if |h| > maxItems then h[maxItems..] else []
  }

  /** The new key comes first, at most `maxItems` keys are kept, and the kept and the
      removed keys are the old list with the new key in front, in order. */
  lemma KeptAndRemoved(history: seq<string>, dataKey: string, maxItems: nat)
    ensures |Kept(history, dataKey, maxItems)| <= maxItems
    ensures |Kept(history, dataKey, maxItems)| == if |history| + 1 > maxItems then maxItems else |history| + 1
    ensures maxItems >= 1 ==> Kept(history, dataKey, maxItems)[0] == dataKey
    ensures Kept(history, dataKey, maxItems) + Removed(history, dataKey, maxItems) == [dataKey] + history
  {
  }

  /** The store after `saveToHistory`: the removed keys deleted, then the history list
      written under `historyKey`, then the data under `dataKey`. */
  function SavedHistory(props: map<string, string>, codec: Codec<seq<string>>, history: seq<string>,
                        historyKey: string, dataKey: string, dataJson: string, maxItems: nat): map<string, string> {
    var removed := set k | k in Removed(history, dataKey, maxItems);
    (props - removed)[historyKey := codec.encode(Kept(history, dataKey, maxItems))][dataKey := dataJson]
  }

  /** After `saveToHistory` the data is stored under its key and the history reads back
      as the kept list. Of the other keys, exactly those cut off the list are deleted,
      and the rest keep their values. */
  lemma SavedHistoryFacts(props: map<string, string>, codec: Codec<seq<string>>, history: seq<string>,
                          historyKey: string, dataKey: string, dataJson: string, maxItems: nat)
    requires Sound(codec)
    ensures var after := SavedHistory(props, codec, history, historyKey, dataKey, dataJson, maxItems);
      dataKey in after && after[dataKey] == dataJson
    ensures var after := SavedHistory(props, codec, history, historyKey, dataKey, dataJson, maxItems);
      historyKey != dataKey ==> HistoryIn(after, codec, historyKey) == Ok(Kept(history, dataKey, maxItems))
    ensures var after := SavedHistory(props, codec, history, historyKey, dataKey, dataJson, maxItems);
      forall k :: k != historyKey && k != dataKey ==>
        (k in after <==> k in props && k !in Removed(history, dataKey, maxItems))
    ensures var after := SavedHistory(props, codec, history, historyKey, dataKey, dataJson, maxItems);
      forall k :: k in after && k != historyKey && k != dataKey ==> after[k] == props[k]
  {
    var kept := Kept(history, dataKey, maxItems);
    assert codec.decode(codec.encode(kept)) == Some(kept) && codec.encode(kept) != "";
  }

  /** One entry of `getHistory`'s result: the key and the text stored under it. */
  datatype Entry = Entry(key: string, data: string)

  /** The entries for `keys`, in their order, skipping keys with nothing stored. */
  function EntriesOf(props: map<string, string>, keys: seq<string>): seq<Entry> {
    if keys == [] then []
    else
      (match Stored(props, keys[0]) case None => [] case Some(v) => [Entry(keys[0], v)])
      + EntriesOf(props, keys[1..])
  }

  /** Every key of `keys` with something stored holds a text that `parses`. */
  predicate StoredParse(props: map<string, string>, keys: seq<string>, parses: string -> bool) {
    forall k :: 0 <= k < |keys| ==> Stored(props, keys[k]).None? || parses(Stored(props, keys[k]).value)
  }

  /** Taking the entries of two lists one after the other is taking the entries of the
      joined list: the entries keep the order of the keys. */
  lemma {:induction false} EntriesOfConcat(props: map<string, string>, a: seq<string>, b: seq<string>)
    ensures EntriesOf(props, a + b) == EntriesOf(props, a) + EntriesOf(props, b)
  {
    if a == [] {
      assert a + b == b;
    } else {
      assert (a + b)[0] == a[0] && (a + b)[1..] == a[1..] + b;
      EntriesOfConcat(props, a[1..], b);
      var head := match Stored(props, a[0]) case None => [] case Some(v) => [Entry(a[0], v)];
      ConcatAssoc(head, EntriesOf(props, a[1..]), EntriesOf(props, b));
    }
  }

  /** There are no more entries than keys; every entry is a key of the list with the
      data stored under it; every key with data stored has its entry. */
  lemma {:induction false} EntriesFacts(props: map<string, string>, keys: seq<string>)
    ensures |EntriesOf(props, keys)| <= |keys|
    ensures forall e :: e in EntriesOf(props, keys) ==> e.key in keys && Stored(props, e.key) == Some(e.data)
    ensures forall k :: k in keys && Stored(props, k).Some? ==> Entry(k, Stored(props, k).value) in EntriesOf(props, keys)
  {
    if keys != [] {
      EntriesFacts(props, keys[1..]);
      assert forall k :: k in keys[1..] ==> k in keys;
      assert forall k :: k in keys ==> k == keys[0] || k in keys[1..];
    }
  }

  /** `Math.min(history.length, limit)`, as a count of loop rounds. */
  function Rounds(length: nat, limit: int): nat {
    if limit <= 0 then 0 else if limit < length then limit else length
  }

  // ---------------------------------------------------------------------------
  // Statistics (lines 207-238; src_backup/dataManager.ts:217-248)

  /** `STATS_` followed by the month asked for, or by the current month when none is. */
  function StatsKey(month: string, currentMonth: string): string {
    "STATS_" + (if month != "" then month else currentMonth)
  }

  // ---------------------------------------------------------------------------
  // getDataSize (src_backup/dataManager.ts:269-290)

  /** The total JavaScript `length` (UTF-16 units) of the values of a store. */
  ghost function TotalSize(props: map<string, string>): nat
    decreases |props|
  {
    if props == map[] then 0
    else
      var k :| k in props;
      Utf16Length(props[k]) + TotalSize(props - {k})
  }

  /** The total does not depend on which key is counted first. */
  lemma {:induction false} TotalSizeWithout(props: map<string, string>, k: string)
    requires k in props
    ensures TotalSize(props) == Utf16Length(props[k]) + TotalSize(props - {k})
    decreases |props|
  {
    var j :| j in props && TotalSize(props) == Utf16Length(props[j]) + TotalSize(props - {j});
    if j != k {
      var rest := props - {j};
      assert k in rest && rest[k] == props[k];
      TotalSizeWithout(rest, k);
      var both := rest - {k};
      assert both == (props - {k}) - {j};
      assert j in props - {k} && (props - {k})[j] == props[j];
      TotalSizeWithout(props - {k}, j);
    }
  }

  /** The outcome `batchSaveToSpreadsheet` (src_backup/dataManager.ts:316-340) reports. */
  datatype SaveOutcome = SaveOutcome(success: bool, message: string, count: Option<nat>)

  /** `appended` is what `SpreadsheetManager.batchAppendPostData` returned, or the
      message of the exception it threw. */
  function BatchSaveOutcome(postCount: nat, appended: Result<bool>): (r: SaveOutcome)
    ensures r.success <==> appended == Ok(true)
    ensures r.success ==> r.count == Some(postCount)
    ensures !r.success ==> r.count.None?
  {
    match appended
    case Ok(true) => SaveOutcome(true, NatToString(postCount) + "件のデータを保存しました", Some(postCount))
    case Ok(false) => SaveOutcome(false, "データの一括保存に失敗しました", None)
    case Err(m) => SaveOutcome(false, "スプレッドシート一括保存エラー: " + m, None)
  }

  // ---------------------------------------------------------------------------
  // The class

  class DataManager {
    /** The script properties. */
    var properties: map<string, string>
    /** JSON for the history key lists and for the settings. */
    const keyCodec: Codec<seq<string>>
    const settingsCodec: Codec<Settings>

    /** Both codecs read back what they write. */
    ghost predicate Valid()
      reads this
    {
      Sound(keyCodec) && Sound(settingsCodec)
    }

    constructor(initial: map<string, string>, keyCodec: Codec<seq<string>>, settingsCodec: Codec<Settings>)
      requires Sound(keyCodec) && Sound(settingsCodec)
      ensures Valid()
      ensures properties == initial && this.keyCodec == keyCodec && this.settingsCodec == settingsCodec
    {
      properties := initial;
      this.keyCodec := keyCodec;
      this.settingsCodec := settingsCodec;
    }

    method SaveSettings(settings: Settings)
      requires Valid()
      modifies this
      ensures properties == old(properties)[SettingsKey := settingsCodec.encode(settings)]
      ensures GetSettings() == Ok(settings)
    {
      properties := properties[SettingsKey := settingsCodec.encode(settings)];
      SettingsRoundTrip(old(properties), settingsCodec, settings);
    }

    function GetSettings(): Result<Settings>
      reads this
    {
      SettingsIn(properties, settingsCodec)
    }

    /** The `deleteProperty` calls for the keys cut off a history list. */
    method DeleteKeys(keys: seq<string>)
      modifies this
      ensures properties == old(properties) - (set k | k in keys)
    {
      var i := 0;
      while i < |keys|
        invariant 0 <= i <= |keys|
        invariant properties == old(properties) - (set k | k in keys[..i])
      {
        assert keys[..i + 1] == keys[..i] + [keys[i]];
        properties := properties - {keys[i]};
        i := i + 1;
      }
      assert keys[..i] == keys;
    }

    /** `saveToHistory(historyKey, dataKey, data, maxItems)`; an error where the stored
        key list does not parse, and then nothing has changed. */
    method SaveToHistory(historyKey: string, dataKey: string, dataJson: string, maxItems: nat) returns (r: Result<()>)
      modifies this
      ensures HistoryIn(old(properties), keyCodec, historyKey).Err? ==> r.Err? && properties == old(properties)
      ensures HistoryIn(old(properties), keyCodec, historyKey).Ok? ==>
        r.Ok? && properties == SavedHistory(old(properties), keyCodec, HistoryIn(old(properties), keyCodec, historyKey).value,
                                            historyKey, dataKey, dataJson, maxItems)
    {
      var history: seq<string> := [];
      if historyKey in properties && properties[historyKey] != "" {
        match keyCodec.decode(properties[historyKey])
        case None =>
          return Err("JSON.parse");
        case Some(keys) =>
          history := keys;
      }
      ghost var old0 := properties;
      ghost var read := history;
      history := [dataKey] + history;
      if |history| > maxItems {
        var removedKeys := history[maxItems..];
        history := history[..maxItems];
        DeleteKeys(removedKeys);
      }
      properties := properties[historyKey := keyCodec.encode(history)];
      properties := properties[dataKey := dataJson];
      assert history == Kept(read, dataKey, maxItems);
      return Ok(());
    }

    /** `getHistory(historyKey, limit)`: the entries for the first `min(length, limit)`
        keys of the list; `parses` says which texts `JSON.parse` accepts, and a stored
        entry it rejects makes the call throw. */
    method GetHistory(historyKey: string, limit: int, parses: string -> bool) returns (r: Result<seq<Entry>>)
      ensures HistoryIn(properties, keyCodec, historyKey).Err? ==> r.Err?
      ensures HistoryIn(properties, keyCodec, historyKey).Ok? ==>
        var history := HistoryIn(properties, keyCodec, historyKey).value;
        var keys := history[..Rounds(|history|, limit)];
        (StoredParse(properties, keys, parses) ==> r == Ok(EntriesOf(properties, keys))) &&
        (!StoredParse(properties, keys, parses) ==> r.Err?)
    {
      if historyKey !in properties || properties[historyKey] == "" {
        return Ok([]);
      }
      var history: seq<string>;
      match keyCodec.decode(properties[historyKey])
      case None =>
        return Err("JSON.parse");
      case Some(keys) =>
        history := keys;
      var results: seq<Entry> := [];
      var n := Rounds(|history|, limit);
      var i := 0;
      while i < n
        invariant 0 <= i <= n <= |history|
        invariant results == EntriesOf(properties, history[..i])
        invariant StoredParse(properties, history[..i], parses)
      {
        var dataKey := history[i];
        var dataJson := if dataKey in properties then properties[dataKey] else "";
        EntriesOfConcat(properties, history[..i], [dataKey]);
        assert history[..i + 1] == history[..i] + [dataKey];
        if dataJson != "" {
          if !parses(dataJson) {
            assert history[..n][i] == dataKey;
            return Err("JSON.parse");
          }
          results := results + [Entry(dataKey, dataJson)];
        }
        i := i + 1;
      }
      return Ok(results);
    }

    /** `savePostData(posts)` at time `timestamp`: the latest record, then the posts in
        the `POST_HISTORY` list under `POST_DATA_<timestamp>`. */
    method SavePostData(timestamp: int, latestJson: string, postsJson: string) returns (r: Result<()>)
      modifies this
      ensures var staged := old(properties)["LATEST_POST_DATA" := latestJson];
        HistoryIn(staged, keyCodec, "POST_HISTORY").Err? ==> r.Err? && properties == staged
      ensures var staged := old(properties)["LATEST_POST_DATA" := latestJson];
        HistoryIn(staged, keyCodec, "POST_HISTORY").Ok? ==>
          r.Ok? && properties == SavedHistory(staged, keyCodec, HistoryIn(staged, keyCodec, "POST_HISTORY").value,
                                     "POST_HISTORY", "POST_DATA_" + IntToString(timestamp), postsJson, 10)
    {
      properties := properties["LATEST_POST_DATA" := latestJson];
      r := SaveToHistory("POST_HISTORY", "POST_DATA_" + IntToString(timestamp), postsJson, 10);
    }

    /** `saveAnalysisResult(result)` at time `timestamp`. */
    method SaveAnalysisResult(timestamp: int, latestJson: string, resultJson: string) returns (r: Result<()>)
      modifies this
      ensures var staged := old(properties)["LATEST_ANALYSIS" := latestJson];
        HistoryIn(staged, keyCodec, "ANALYSIS_HISTORY").Err? ==> r.Err? && properties == staged
      ensures var staged := old(properties)["LATEST_ANALYSIS" := latestJson];
        HistoryIn(staged, keyCodec, "ANALYSIS_HISTORY").Ok? ==>
          r.Ok? && properties == SavedHistory(staged, keyCodec, HistoryIn(staged, keyCodec, "ANALYSIS_HISTORY").value,
                                     "ANALYSIS_HISTORY", "ANALYSIS_" + IntToString(timestamp), resultJson, 10)
    {
      properties := properties["LATEST_ANALYSIS" := latestJson];
      r := SaveToHistory("ANALYSIS_HISTORY", "ANALYSIS_" + IntToString(timestamp), resultJson, 10);
    }

    /** `saveStatistics(stats)` in the month `currentMonth`. */
    method SaveStatistics(currentMonth: string, statsJson: string)
      modifies this
      ensures properties == old(properties)[StatsKey("", currentMonth) := statsJson]
      ensures statsJson != "" ==> forall parses: string -> bool :: parses(statsJson) ==>
        GetStatistics("", currentMonth, parses) == Ok(Some(statsJson))
    {
      properties := properties[StatsKey("", currentMonth) := statsJson];
    }

    /** `getStatistics(month)` of src/dataManager.ts: `null` when nothing is stored for
        the month, the stored statistics when `JSON.parse` (`parses`) accepts them, and
        the error it throws otherwise. */
    function GetStatistics(month: string, currentMonth: string, parses: string -> bool): (r: Result<Option<string>>)
      reads this
      ensures r == Ok(None) <==> Stored(properties, StatsKey(month, currentMonth)).None?
      ensures r.Err? <==> Stored(properties, StatsKey(month, currentMonth)).Some? &&
                          !parses(properties[StatsKey(month, currentMonth)])
      ensures r.Ok? && r.value.Some? ==> r.value.value == properties[StatsKey(month, currentMonth)] && parses(r.value.value)
    {
      match Stored(properties, StatsKey(month, currentMonth))
      case None => Ok(None)
      case Some(text) => if parses(text) then Ok(Some(text)) else Err("JSON.parse")
    }

    /** `getStatistics(month)` of src_backup/dataManager.ts: `{}` when nothing is
        stored for the month, and otherwise as the newer copy. */
    function GetStatisticsOrEmpty(month: string, currentMonth: string, parses: string -> bool): (r: Result<string>)
      reads this
      ensures GetStatistics(month, currentMonth, parses) == Ok(None) ==> r == Ok("{}")
      ensures GetStatistics(month, currentMonth, parses).Err? ==> r.Err?
      ensures GetStatistics(month, currentMonth, parses).Ok? && GetStatistics(month, currentMonth, parses).value.Some? ==>
        r == Ok(GetStatistics(month, currentMonth, parses).value.value)
    {
      match Stored(properties, StatsKey(month, currentMonth))
      case None => Ok("{}")
      case Some(text) => if parses(text) then Ok(text) else Err("JSON.parse")
    }

    /** `clearAllData()`: every key is deleted. */
    method ClearAllData()
      modifies this
      ensures properties == map[]
    {
      while properties != map[]
        decreases |properties|
      {
        var key :| key in properties;
        properties := properties - {key};
      }
    }

    /** `getDataSize()` of src_backup/dataManager.ts: the total `length` of the values
        and the number of keys. */
    method GetDataSize() returns (totalSize: nat, itemCount: nat, details: map<string, nat>)
      ensures totalSize == TotalSize(properties) && itemCount == |properties|
      ensures details.Keys == properties.Keys
      ensures forall k :: k in details ==> details[k] == Utf16Length(properties[k])
    {
      var remaining := properties;
      totalSize := 0;
      details := map[];
      while remaining != map[]
        invariant remaining.Keys <= properties.Keys
        invariant forall k :: k in remaining ==> remaining[k] == properties[k]
        invariant totalSize + TotalSize(remaining) == TotalSize(properties)
        invariant details.Keys <= properties.Keys
        invariant forall k :: k in properties ==> (k in details <==> k !in remaining)
        invariant forall k :: k in details ==> details[k] == Utf16Length(properties[k])
        decreases |remaining|
      {
        var key :| key in remaining;
        TotalSizeWithout(remaining, key);
        var size := Utf16Length(remaining[key]);
        details := details[key := size];
        totalSize := totalSize + size;
        remaining := remaining - {key};
      }
      itemCount := |properties|;
    }
  }
}
