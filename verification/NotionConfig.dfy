/** The system configuration read from the Notion configuration database:
    one row per setting, a "Key" title and a "Value" rich text. The database
    query is an input: the rows it returned, or the error it threw. */
module NotionConfig {
  import opened Wrappers
  import opened Text

  /** One database row: the `plain_text` of each item of its "Key" title and
      of its "Value" rich text, empty when the property is missing. */
  datatype ConfigRow = ConfigRow(keyTitle: seq<string>, valueText: seq<string>)

  /** A setting as stored in the configuration object. */
  datatype ConfigValue = Flag(b: bool) | TextValue(s: string) | Keywords(words: seq<string>)

  type SystemConfig = map<string, ConfigValue>

  const HandoverKeywords: string := "HANDOVER_KEYWORDS"

  /** The one key a plain object literal cannot store as an own property:
      assigning a boolean or a string to `__proto__` goes to the inherited
      prototype setter, which ignores values that are not objects. */
  const ProtoKey: string := "__proto__"

  /** A key whose assignment lands in the configuration object: non-empty
      (the source's `if (key)`) and not `__proto__`. */
  predicate Stored(key: string) {
    key != "" && key != ProtoKey
  }

  /** A row's key: the first item of its title, "" when there is none. */
  function RowKey(row: ConfigRow): string {
    if |row.keyTitle| > 0 then row.keyTitle[0] else ""
  }

  /** A row's raw value: the first item of its rich text, "" when there is none. */
  function RowValue(row: ConfigRow): string {
    if |row.valueText| > 0 then row.valueText[0] else ""
  }

  /** Type conversion of a raw value: "true" and "false" become booleans,
      anything else stays text. */
  function DecodeValue(v: string): (r: ConfigValue)
    ensures r.Flag? <==> v == "true" || v == "false"
    ensures r.Flag? ==> (r.b <==> v == "true")
    ensures r.TextValue? ==> r.s == v
    ensures !r.Keywords?
  {
    if v == "true" then Flag(true)
    else if v == "false" then Flag(false)
    else TextValue(v)
  }

  /** The configuration object after visiting `rows` in order: a row with a
      stored key sets that key, so a later row overwrites an earlier one. */
  function ConfigOf(rows: seq<ConfigRow>): (config: SystemConfig)
    ensures "" !in config && ProtoKey !in config
    ensures forall k :: k in config ==> !config[k].Keywords?
  {
    if rows == [] then map[]
    else
      var before := ConfigOf(rows[..|rows| - 1]);
      var row := rows[|rows| - 1];
      if Stored(RowKey(row)) then before[RowKey(row) := DecodeValue(RowValue(row))] else before
  }

  /** The `forEach` over the query results, mutating one object. */
  method ParseConfigRows(rows: seq<ConfigRow>) returns (config: SystemConfig)
    ensures config == ConfigOf(rows)
  {
    config := map[];
    var i := 0;
    while i < |rows|
      invariant 0 <= i <= |rows|
      invariant config == ConfigOf(rows[..i])
    {
      var key := "";
      var value := "";
      if |rows[i].keyTitle| > 0 {
        key := rows[i].keyTitle[0];
      }
      if |rows[i].valueText| > 0 {
        value := rows[i].valueText[0];
      }
      // The assignment itself does nothing when the key is `__proto__`.
      if key != "" && key != ProtoKey {
        if value == "true" {
          config := config[key := Flag(true)];
        } else if value == "false" {
          config := config[key := Flag(false)];
        } else {
          config := config[key := TextValue(value)];
        }
      }
      assert rows[..i + 1][..i] == rows[..i];
      i := i + 1;
    }
    assert rows[..i] == rows;
  }

  /** A text HANDOVER_KEYWORDS setting split on commas, each part trimmed;
      blank parts are kept. */
  function WithKeywordList(config: SystemConfig): (r: SystemConfig)
    ensures r.Keys == config.Keys
    ensures forall k :: k in config && k != HandoverKeywords ==> r[k] == config[k]
    ensures HandoverKeywords in config && !config[HandoverKeywords].TextValue? ==>
              r[HandoverKeywords] == config[HandoverKeywords]
  {
    if HandoverKeywords in config && config[HandoverKeywords].TextValue? then
      config[HandoverKeywords := Keywords(TrimEach(Split(config[HandoverKeywords].s, ',')))]
    else config
  }

  function TrimEach(parts: seq<string>): (r: seq<string>)
    ensures |r| == |parts|
    ensures forall i :: 0 <= i < |parts| ==> r[i] == Trim(parts[i])
  {
    seq(|parts|, i requires 0 <= i < |parts| => Trim(parts[i]))
  }

  /** `getSystemConfig`: `None` (the source's `null`) when the database id
      is unset or the query threw, otherwise the parsed rows with the
      keyword list split. */
  method GetSystemConfig(configDbId: string, query: Result<seq<ConfigRow>>) returns (r: Option<SystemConfig>)
    ensures configDbId == "" || query.Err? ==> r == None
    ensures configDbId != "" && query.Ok? ==> r == Some(WithKeywordList(ConfigOf(query.value)))
  {
    if configDbId == "" {
      return None;
    }
    match query
    case Err(_) =>
      r := None;
    case Ok(rows) =>
      var config := ParseConfigRows(rows);
      r := Some(WithKeywordList(config));
  }

  // ---------------------------------------------------------------------
  // Properties
  // ---------------------------------------------------------------------

  /** A key is configured exactly when some row carries it, and rows with an
      empty key or the key `__proto__` leave no entry. */
  lemma {:induction false} ConfigKeys(rows: seq<ConfigRow>, k: string)
    ensures k in ConfigOf(rows) <==> Stored(k) && exists i :: 0 <= i < |rows| && RowKey(rows[i]) == k
  {
    if rows != [] {
      var init := rows[..|rows| - 1];
      ConfigKeys(init, k);
      if k in ConfigOf(init) {
        var i :| 0 <= i < |init| && RowKey(init[i]) == k;
        assert RowKey(rows[i]) == k;
      }
      if Stored(k) && (exists i :: 0 <= i < |rows| && RowKey(rows[i]) == k) {
        var i :| 0 <= i < |rows| && RowKey(rows[i]) == k;
        if i < |rows| - 1 { assert RowKey(init[i]) == k; }
      }
    }
  }

  /** The last row with a given key decides its value. */
  lemma {:induction false} ConfigLastWins(rows: seq<ConfigRow>, i: nat)
    requires i < |rows| && Stored(RowKey(rows[i]))
    requires forall j :: i < j < |rows| ==> RowKey(rows[j]) != RowKey(rows[i])
    ensures RowKey(rows[i]) in ConfigOf(rows)
    ensures ConfigOf(rows)[RowKey(rows[i])] == DecodeValue(RowValue(rows[i]))
  {
    if i < |rows| - 1 {
      var init := rows[..|rows| - 1];
      assert init[i] == rows[i];
      ConfigLastWins(init, i);
    }
  }

  /** A text keyword setting listing trimmed, comma-free keywords becomes
      exactly that list. */
  lemma KeywordListRoundTrip(config: SystemConfig, words: seq<string>)
    requires |words| >= 1
    requires forall w :: w in words ==> Trimmed(w) && ',' !in w
    requires HandoverKeywords in config && config[HandoverKeywords] == TextValue(Join(words, ","))
    ensures WithKeywordList(config)[HandoverKeywords] == Keywords(words)
  {
    assert "," == [','];
    SplitJoin(words, ',');
    TrimEachTrimmed(words);
  }

  lemma TrimEachTrimmed(words: seq<string>)
    requires forall w :: w in words ==> Trimmed(w)
    ensures TrimEach(words) == words
  {
    forall i | 0 <= i < |words| ensures TrimEach(words)[i] == words[i] {
      assert words[i] in words;
    }
  }

  /** The keyword setting, when it was text, has one trimmed entry per
      comma-separated part. */
  lemma KeywordListShape(config: SystemConfig)
    requires HandoverKeywords in config && config[HandoverKeywords].TextValue?
    ensures WithKeywordList(config)[HandoverKeywords].Keywords?
    ensures |WithKeywordList(config)[HandoverKeywords].words| == |Split(config[HandoverKeywords].s, ',')|
    ensures forall w :: w in WithKeywordList(config)[HandoverKeywords].words ==> Trimmed(w) && ',' !in w
    ensures forall i :: 0 <= i < |Split(config[HandoverKeywords].s, ',')| ==>
              WithKeywordList(config)[HandoverKeywords].words[i] == Trim(Split(config[HandoverKeywords].s, ',')[i])
  {
    var parts := Split(config[HandoverKeywords].s, ',');
    forall w | w in TrimEach(parts) ensures Trimmed(w) && ',' !in w {
      var i :| 0 <= i < |parts| && TrimEach(parts)[i] == w;
      assert parts[i] in parts;
    }
  }
}
