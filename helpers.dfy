/**
 * The typed "get or default" lookups over a tag map (internal/collector/helpers.go).
 * Each has three outcomes: the key is present and its value parses, so the parsed
 * value is returned; the key is present but the value does not parse (or is empty,
 * where that counts), so the default is returned; the key is absent, so the default
 * is returned.
 *
 * JSON decoding (`encoding/json.Unmarshal`) is a parameter: a partial function that
 * either yields the decoded value or fails.
 */
module Helpers {
  import opened Wrappers
  import opened Text

  datatype Owner = Owner(role: string, uuid: string, name: string)

  datatype Notifications = Notifications(slack: seq<string>, emails: seq<string>, msTeams: seq<string>)

  /** The members of the `Notifications` struct a JSON object can fill in. */
  datatype NotificationField = SlackField | EmailsField | MsTeamsField

  /** What `json.Unmarshal` into a `[]Owner` yields, or `None` when it fails. */
  type OwnersDecoder = string -> Option<seq<Owner>>

  /**
   * What `json.Unmarshal` into a zero `Notifications` finds: the string lists present
   * in the JSON object, by the field they bind to; `None` when decoding fails.
   */
  type NotificationsDecoder = string -> Option<map<NotificationField, seq<string>>>

  const TrueTokens: set<string> := {"1", "t", "T", "TRUE", "true", "True"}
  const FalseTokens: set<string> := {"0", "f", "F", "FALSE", "false", "False"}

  /** `ParseBool` accepts exactly the twelve tokens, with their meaning. */
  lemma ParseBoolTokens(s: string)
    ensures ParseBool(s) == Some(true) <==> s in TrueTokens
    ensures ParseBool(s) == Some(false) <==> s in FalseTokens
    ensures ParseBool(s) == None <==> s !in TrueTokens + FalseTokens
  {
  }

  /** `GetOrDefaultBool`. */
  function GetOrDefaultBool(m: Tags, name: string, defaultValue: bool): (r: bool)
    ensures name in m && m[name] in TrueTokens ==> r
    ensures name in m && m[name] in FalseTokens ==> !r
    ensures name !in m || m[name] !in TrueTokens + FalseTokens ==> r == defaultValue
  {
    ParseBoolTokens(if name in m then m[name] else "");
    var value := if name in m then ParseBool(m[name]) else None;
    value.GetOr(defaultValue)
  }

  /** `GetOrDefaultString`: an absent key and an empty value both give the default. */
  function GetOrDefaultString(m: Tags, name: string, defaultValue: string): (r: string)
    ensures name in m && m[name] != "" ==> r == m[name]
    ensures name !in m || m[name] == "" ==> r == defaultValue
    ensures r == "" ==> defaultValue == ""
  {
    var value := if name in m then m[name] else defaultValue;
    if |value| == 0 then defaultValue else value
  }

  /** `GetOrDefaultInt64`: the value when it is a base-10 int64, otherwise the default. */
  function GetOrDefaultInt64(m: Tags, name: string, defaultValue: int64): (r: int64)
    ensures name in m && ParseInt64(m[name]).Some? ==> r == ParseInt64(m[name]).value
    ensures name !in m || ParseInt64(m[name]).None? ==> r == defaultValue
  {
    if name in m then ParseInt64(m[name]).GetOr(defaultValue) else defaultValue
  }

  /** A stored decimal spelling of any int64 is read back as that number. */
  lemma GetOrDefaultInt64Decimal(m: Tags, name: string, n: int64, defaultValue: int64)
    requires name in m && m[name] == FormatInt(n)
    ensures GetOrDefaultInt64(m, name, defaultValue) == n
  {
    ParseFormatInt64(n);
  }

  /**
   * `GetOrDefaultStringSlice`: an absent key gives the default list unchanged; a present
   * key (even with an empty value) gives its value split at every comma, no trimming.
   */
  function GetOrDefaultStringSlice(m: Tags, name: string, defaultValue: seq<string>): (r: seq<string>)
    ensures name !in m ==> r == defaultValue
    ensures name in m ==> |r| == Count(m[name], ',') + 1
    ensures name in m ==> forall i :: 0 <= i < |r| ==> ',' !in r[i]
    ensures name in m ==> Join(r, ',') == m[name]
  {
    if name in m then
      JoinSplit(m[name], ',');
      Split(m[name], ',')
    else defaultValue
  }

  /**
   * `GetOrDefaultOwners`: an absent key or an empty value gives the default; a value
   * that does not decode gives the default unchanged; otherwise exactly the decoded list.
   */
  function GetOrDefaultOwners(tags: Tags, key: string, defaultValue: seq<Owner>, decode: OwnersDecoder): (r: seq<Owner>)
    ensures key !in tags || tags[key] == "" ==> r == defaultValue
    ensures key in tags && tags[key] != "" && decode(tags[key]).None? ==> r == defaultValue
    ensures key in tags && tags[key] != "" && decode(tags[key]).Some? ==> r == decode(tags[key]).value
  {
    if key !in tags || tags[key] == "" then defaultValue
    else
      match decode(tags[key])
      case None => defaultValue
      case Some(owners) => owners
  }

  /** A string list the JSON object does not mention keeps the zero value: empty. */
  function FieldOrEmpty(found: map<NotificationField, seq<string>>, f: NotificationField): (l: seq<string>)
    ensures f in found ==> l == found[f]
    ensures f !in found ==> l == []
  {
    if f in found then found[f] else []
  }

  /**
   * `GetOrDefaultNotifications`: same three outcomes; a successful decode fills a zero
   * `Notifications`, so a sub-list missing from the JSON comes out empty instead of
   * being taken from the default.
   */
  function GetOrDefaultNotifications(tags: Tags, key: string, defaultValue: Notifications, decode: NotificationsDecoder): (r: Notifications)
    ensures key !in tags || tags[key] == "" ==> r == defaultValue
    ensures key in tags && tags[key] != "" && decode(tags[key]).None? ==> r == defaultValue
    ensures key in tags && tags[key] != "" && decode(tags[key]).Some? ==>
      var found := decode(tags[key]).value;
      r == Notifications(FieldOrEmpty(found, SlackField), FieldOrEmpty(found, EmailsField), FieldOrEmpty(found, MsTeamsField))
  {
    if key !in tags || tags[key] == "" then defaultValue
    else
      match decode(tags[key])
      case None => defaultValue
      case Some(found) =>
        Notifications(FieldOrEmpty(found, SlackField), FieldOrEmpty(found, EmailsField), FieldOrEmpty(found, MsTeamsField))
  }

  /** Once the value decodes, the default plays no part at all: it is replaced as a whole. */
  lemma NotificationsDecodeReplacesDefault(tags: Tags, key: string, d1: Notifications, d2: Notifications, decode: NotificationsDecoder)
    requires key in tags && tags[key] != "" && decode(tags[key]).Some?
    ensures GetOrDefaultNotifications(tags, key, d1, decode) == GetOrDefaultNotifications(tags, key, d2, decode)
    ensures SlackField !in decode(tags[key]).value ==> GetOrDefaultNotifications(tags, key, d1, decode).slack == []
    ensures EmailsField !in decode(tags[key]).value ==> GetOrDefaultNotifications(tags, key, d1, decode).emails == []
    ensures MsTeamsField !in decode(tags[key]).value ==> GetOrDefaultNotifications(tags, key, d1, decode).msTeams == []
  {
  }

  /** Two tag maps that agree on one key. */
  ghost predicate AgreeOn(m1: Tags, m2: Tags, key: string) {
    (key in m1 <==> key in m2) && (key in m1 ==> m1[key] == m2[key])
  }

  /** Each resolver reads the single key it is given and nothing else of the map. */
  lemma ResolversReadOneKey(m1: Tags, m2: Tags, key: string, b: bool, s: string, n: int64, l: seq<string>,
                            o: seq<Owner>, nt: Notifications, decodeOwners: OwnersDecoder, decodeNotifications: NotificationsDecoder)
    requires AgreeOn(m1, m2, key)
    ensures GetOrDefaultBool(m1, key, b) == GetOrDefaultBool(m2, key, b)
    ensures GetOrDefaultString(m1, key, s) == GetOrDefaultString(m2, key, s)
    ensures GetOrDefaultInt64(m1, key, n) == GetOrDefaultInt64(m2, key, n)
    ensures GetOrDefaultStringSlice(m1, key, l) == GetOrDefaultStringSlice(m2, key, l)
    ensures GetOrDefaultOwners(m1, key, o, decodeOwners) == GetOrDefaultOwners(m2, key, o, decodeOwners)
    ensures GetOrDefaultNotifications(m1, key, nt, decodeNotifications) == GetOrDefaultNotifications(m2, key, nt, decodeNotifications)
  {
  }

  /** The fixed map the resolver tests look keys up in. */
  const TestMap: Tags := map["str" := "some-string", "int64" := "123", "bool" := "true",
                             "string-slice" := "a,b,c", "float" := "1.23", "empty" := ""]

  /** Boolean lookups of the resolver tests: only a boolean token is taken, otherwise the default. */
  lemma BoolExamples()
    ensures GetOrDefaultBool(TestMap, "does-not-exist", true)
    ensures GetOrDefaultBool(TestMap, "str", true) && GetOrDefaultBool(TestMap, "int64", true)
    ensures GetOrDefaultBool(TestMap, "string-slice", true) && GetOrDefaultBool(TestMap, "float", true)
    ensures GetOrDefaultBool(TestMap, "bool", false)
  {
  }

  /** String lookups of the resolver tests: any non-empty text is taken verbatim. */
  lemma StringExamples()
    ensures GetOrDefaultString(TestMap, "does-not-exist", "default-value") == "default-value"
    ensures GetOrDefaultString(TestMap, "int64", "default-value") == "123"
    ensures GetOrDefaultString(TestMap, "str", "default-value") == "some-string"
    ensures GetOrDefaultString(TestMap, "empty", "default-value") == "default-value"
  {
  }

  /** Integer lookups of the resolver tests: a float, a boolean or a list gives the default. */
  lemma Int64Examples()
    ensures GetOrDefaultInt64(TestMap, "does-not-exist", 999) == 999
    ensures GetOrDefaultInt64(TestMap, "str", 999) == 999
    ensures GetOrDefaultInt64(TestMap, "bool", 999) == 999
    ensures GetOrDefaultInt64(TestMap, "string-slice", 999) == 999
    ensures GetOrDefaultInt64(TestMap, "float", 999) == 999
    ensures GetOrDefaultInt64(TestMap, "int64", 999) == 123
  {
    assert !IsDigit("some-string"[0]);
    assert !IsDigit("true"[0]);
    assert !IsDigit("a,b,c"[0]);
    assert !IsDigit("1.23"[1]);
    assert "123"[..2] == "12" && "12"[..1] == "1" && "1"[..0] == "";
    assert DecimalValue("123") == 123;
  }

  /** One past the largest int64, written in decimal, is out of range: the default is kept. */
  lemma Int64OutOfRangeExample(key: string)
    ensures GetOrDefaultInt64(map[key := FormatInt(MaxInt64 + 1)], key, 999) == 999
    ensures GetOrDefaultInt64(map[key := FormatInt(MaxInt64)], key, 999) == MaxInt64
  {
    ParseInt64OutOfRange(FormatInt(MaxInt64 + 1));
    ParseFormatInt64(MaxInt64 as int64);
  }

  /** List lookups of the resolver tests: an absent key gives the default list. */
  lemma StringSliceAbsentExample()
    ensures GetOrDefaultStringSlice(TestMap, "does-not-exist", ["foo", "bar"]) == ["foo", "bar"]
  {
  }

  /** A value without a comma comes back as a one-item list. */
  lemma StringSliceSingleExamples()
    ensures GetOrDefaultStringSlice(TestMap, "str", ["foo", "bar"]) == ["some-string"]
  {
    assert TestMap["str"] == "some-string";
    assert Split("some-string", ',') == ["some-string"] by { SplitNoSeparator("some-string", ','); }
  }

  /** So does a number with a decimal point. */
  lemma StringSliceFloatExample()
    ensures GetOrDefaultStringSlice(TestMap, "float", ["foo", "bar"]) == ["1.23"]
  {
    assert TestMap["float"] == "1.23";
    assert Split("1.23", ',') == ["1.23"] by { SplitNoSeparator("1.23", ','); }
  }

  /** An empty value is present, so it is split too, into one empty item. */
  lemma StringSliceEmptyExample()
    ensures GetOrDefaultStringSlice(TestMap, "empty", ["foo", "bar"]) == [""]
  {
    assert TestMap["empty"] == "";
  }

  /** The comma-separated list of the resolver tests comes out as its three items. */
  lemma StringSliceSplitExample()
    ensures GetOrDefaultStringSlice(TestMap, "string-slice", ["foo", "bar"]) == ["a", "b", "c"]
  {
    assert TestMap["string-slice"] == "a,b,c";
    assert Split("c", ',') == ["c"] by { assert "c"[1..] == "" && ['c'] + "" == "c"; }
    assert Split(",c", ',') == ["", "c"] by { assert ",c"[1..] == "c"; }
    assert Split("b,c", ',') == ["b", "c"] by { assert "b,c"[1..] == ",c" && ['b'] + "" == "b"; }
    assert Split(",b,c", ',') == ["", "b", "c"] by { assert ",b,c"[1..] == "b,c"; }
    assert Split("a,b,c", ',') == ["a", "b", "c"] by { assert "a,b,c"[1..] == ",b,c" && ['a'] + "" == "a"; }
  }

  /** Owner lookups of the resolver tests, for a decoder that accepts "[]" and rejects junk. */
  lemma OwnersExamples(defaultOwners: seq<Owner>, decode: OwnersDecoder)
    requires decode("[]") == Some([]) && decode("not-valid-json") == None
    ensures GetOrDefaultOwners(map["owners" := "[]"], "owners", defaultOwners, decode) == []
    ensures GetOrDefaultOwners(map["owners" := "not-valid-json"], "owners", defaultOwners, decode) == defaultOwners
    ensures GetOrDefaultOwners(map["owners" := ""], "owners", defaultOwners, decode) == defaultOwners
    ensures GetOrDefaultOwners(map["owners" := "[]"], "invalidkey", defaultOwners, decode) == defaultOwners
  {
  }
}
