/**
 * The legacy collector entry (internal/cmd/imagecollector/model/collectorEntry.go):
 * the struct-level check of the two chat channels and the field-tag constraints.
 * The channel pattern is a fixed character class, so it is stated exactly here.
 */
module ImageCollectorModel {

  /** The fields of a `CollectorEntry` that the checks below read. */
  datatype CollectorEntry = CollectorEntry(
    environment: string,
    namespace: string,
    image: string,
    imageId: string,
    team: string,
    slack: string,
    rocketchat: string,
    email: string,
    containerType: string)

  /** The pattern quoted in every report. */
  const ChannelRegex: string := @"^#[\w.\-]+$"

  /** `[\w.\-]`: an ASCII letter or digit, `_`, `.` or `-`. */
  predicate ChannelChar(c: char) {
    ('a' <= c <= 'z') || ('A' <= c <= 'Z') || ('0' <= c <= '9') || c == '_' || c == '.' || c == '-'
  }

  /** A whole-string match of `^#[\w.\-]+$`: `#` and at least one channel character, nothing else. */
  predicate ValidChannel(s: string) {
    |s| >= 2 && s[0] == '#' && forall i :: 1 <= i < |s| ==> ChannelChar(s[i])
  }

  /** One `sl.ReportError` call: the rejected value, the field names, the tag and its parameter. */
  datatype FieldError = FieldError(value: string, field: string, structField: string, tag: string, param: string)

  /** The report for one channel field, if it is set and does not match. */
  function CheckChannel(value: string, field: string): (r: seq<FieldError>)
    ensures |r| <= 1
    ensures |r| == 1 <==> value != "" && !ValidChannel(value)
    ensures |r| == 1 ==> r[0] == FieldError(value, field, field, "", ChannelRegex)
  {
    if value != "" && !ValidChannel(value) then [FieldError(value, field, field, "", ChannelRegex)] else []
  }

  /**
   * `ValidateCollectorEntry`: the reports made, Slack before Rocketchat; each
   * channel is judged on its own, and an empty channel is never reported.
   */
  function ValidateCollectorEntry(entry: CollectorEntry): (errors: seq<FieldError>)
    ensures |errors| <= 2
    ensures forall e :: e in errors ==> e.field in {"Slack", "Rocketchat"} && e.param == ChannelRegex
    ensures (exists e :: e in errors && e.field == "Slack") <==> entry.slack != "" && !ValidChannel(entry.slack)
    ensures (exists e :: e in errors && e.field == "Rocketchat") <==>
      (entry.rocketchat != "" && !ValidChannel(entry.rocketchat))
    ensures |errors| == 2 ==> errors[0].field == "Slack" && errors[1].field == "Rocketchat"
  {
    CheckChannel(entry.slack, "Slack") + CheckChannel(entry.rocketchat, "Rocketchat")
  }

  /** Only the two channel fields are inspected. */
  lemma ValidateReadsOnlyChannels(a: CollectorEntry, b: CollectorEntry)
    requires a.slack == b.slack && a.rocketchat == b.rocketchat
    ensures ValidateCollectorEntry(a) == ValidateCollectorEntry(b)
  {
  }

  /** `#` alone, a missing `#` and a character outside the class are all rejected; a trailing name is accepted. */
  lemma ChannelExamples()
    ensures !ValidChannel("#")
    ensures !ValidChannel("general")
    ensures !ValidChannel("#dev team")
    ensures ValidChannel("#dev-team_1.x")
  {
    assert "general"[0] == 'g';
    assert "#dev team"[4] == ' ';
  }

  /** A valid channel is exactly `#` followed by a non-empty run of channel characters. */
  lemma ValidChannelShape(s: string)
    ensures ValidChannel(s) <==>
      (exists t :: s == "#" + t && t != "" && forall i :: 0 <= i < |t| ==> ChannelChar(t[i]))
  {
    if ValidChannel(s) {
      var t := s[1..];
      assert s == "#" + t;
    }
  }

  /** Appending channel characters keeps a channel valid, and `#` plus them makes one. */
  lemma {:induction false} ValidChannelExtend(s: string, t: string)
    requires s == "#" || ValidChannel(s)
    requires forall i :: 0 <= i < |t| ==> ChannelChar(t[i])
    ensures t != "" ==> ValidChannel(s + t)
  {
    if t != "" {
      var u := s + t;
      forall i | 1 <= i < |u| ensures ChannelChar(u[i]) {
        if i < |s| { assert u[i] == s[i]; } else { assert u[i] == t[i - |s|]; }
      }
    }
  }

  /**
   * The `validate` tags: environment, namespace, image and image id are required
   * (non-empty), and the container type is "application" or "third-party".
   */
  predicate SatisfiesRequiredTags(entry: CollectorEntry) {
    entry.environment != "" && entry.namespace != "" && entry.image != "" && entry.imageId != ""
    && entry.containerType in {"application", "third-party"}
  }

  /** The container type restriction is exact: a capitalised or empty value fails. */
  lemma ContainerTypeExamples(entry: CollectorEntry)
    requires entry.environment != "" && entry.namespace != "" && entry.image != "" && entry.imageId != ""
    ensures entry.containerType == "application" ==> SatisfiesRequiredTags(entry)
    ensures entry.containerType == "third-party" ==> SatisfiesRequiredTags(entry)
    ensures entry.containerType == "Application" ==> !SatisfiesRequiredTags(entry)
    ensures entry.containerType == "" ==> !SatisfiesRequiredTags(entry)
  {
    if entry.containerType == "Application" {
      assert entry.containerType[0] == 'A';
    }
  }
}
