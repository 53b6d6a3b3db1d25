/**
 * The presets page (app/routes/presets.tsx): the profile it sends to the
 * generator for a preset, the name of the downloaded file, and the short
 * payload-type labels it lists under each preset.
 */
module Presets {
  import opened Wrappers
  import opened ProfileTypes
  import opened Strings
  import Generator

  /** The profile `handleUsePreset(preset)` posts: name, description, an identifier from the id, and the preset's payloads. */
  function ProfileFromPreset(preset: Preset): Profile
  {
    Profile(
      PayloadContent := preset.payloads,
      PayloadDescription := Some(preset.description),
      PayloadDisplayName := Some(preset.name),
      PayloadIdentifier := Some("com.example." + preset.id),
      PayloadOrganization := None,
      PayloadRemovalDisallowed := None,
      PayloadScope := None,
      PayloadType := None,
      PayloadUUID := None,
      PayloadVersion := None,
      ConsentText := None)
  }

  /** The file name the page gives the download. */
  const Extension: string := ".mobileconfig"

  /** `${preset.id}.mobileconfig`. */
  function DownloadFilename(preset: Preset): (name: string)
    ensures |name| == |preset.id| + |Extension|
    ensures name[..|preset.id|] == preset.id && name[|preset.id|..] == Extension
  {
    preset.id + Extension
  }

  /** `payloadType.split('.').pop()`: the text after the last dot, or the whole type when it has none. */
  function TypeLabel(payloadType: string): (name: string)
    ensures |name| <= |payloadType| && name == payloadType[|payloadType| - |name|..]
    ensures '.' !in name
    ensures |name| < |payloadType| ==> payloadType[|payloadType| - |name| - 1] == '.'
    ensures name == payloadType <==> '.' !in payloadType
  {
    LastPieceIsSuffix(payloadType, '.');
    Last(Split(payloadType, '.'))
  }

  /** The labels of a list of payloads, in order. */
  function Labels(payloads: seq<Payload>): (labels: seq<string>)
    ensures |labels| == |payloads|
  {
    if |payloads| == 0 then [] else [TypeLabel(payloads[0].PayloadType)] + Labels(payloads[1..])
  }

  /**
   * The text of the label line from position `from` on: each label in its
   * own span, followed by ", " when it is not the last one
   * (`index < preset.payloads.length - 1 && ', '`).
   */
  function LabelSpans(payloads: seq<Payload>, from: nat): string
    decreases |payloads| - from
  {
    if from >= |payloads| then ""
    else
      var separator := if from < |payloads| - 1 then ", " else "";
      TypeLabel(payloads[from].PayloadType) + separator + LabelSpans(payloads, from + 1)
  }

  /** The label line is the labels joined by ", ". */
  lemma {:induction false} LabelSpansJoin(payloads: seq<Payload>, from: nat)
    requires from <= |payloads|
    ensures LabelSpans(payloads, from) == Join(Labels(payloads[from..]), ", ")
    decreases |payloads| - from
  {
    if from < |payloads| {
      var rest := payloads[from..];
      assert rest[1..] == payloads[from + 1..];
      LabelSpansJoin(payloads, from + 1);
      if from == |payloads| - 1 {
        assert Labels(rest) == [TypeLabel(payloads[from].PayloadType)];
      } else {
        assert Labels(rest)[1..] == Labels(payloads[from + 1..]);
      }
    }
  }

  /** n labels are written with n - 1 separators between them and none after the last. */
  lemma LabelSeparators(payloads: seq<Payload>)
    requires |payloads| > 0
    ensures LabelSpans(payloads, 0) == Join(Labels(payloads), ", ")
    ensures |LabelSpans(payloads, 0)| == TotalLength(Labels(payloads)) + 2 * (|payloads| - 1)
  {
    LabelSpansJoin(payloads, 0);
    assert payloads[0..] == payloads;
    JoinLength(Labels(payloads), ", ");
  }

  /** A preset's profile keeps the preset's payloads exactly, and carries no UUID or consent text of its own. */
  lemma PresetProfile(preset: Preset)
    ensures var p := ProfileFromPreset(preset);
      && p.PayloadContent == preset.payloads
      && p.PayloadDisplayName == Some(preset.name)
      && p.PayloadDescription == Some(preset.description)
      && p.PayloadIdentifier.Some?
      && |p.PayloadIdentifier.value| == |"com.example."| + |preset.id|
      && p.PayloadIdentifier.value[..|"com.example."|] == "com.example."
      && p.PayloadIdentifier.value[|"com.example."|..] == preset.id
      && p.PayloadUUID == None && p.ConsentText == None
  {
  }

  /**
   * The document generated for a preset: its identifier is always
   * `com.example.` followed by the preset id (it is never empty, so never
   * defaulted), its name and description are the preset's unless empty, its
   * UUID is the generated one, and it has no consent text.
   */
  lemma PresetDocument(preset: Preset, generated: string)
    ensures var es := Generator.Entries(ProfileFromPreset(preset), generated);
      && Generator.Lookup(es, "PayloadIdentifier") == Some(Generator.PString("com.example." + preset.id))
      && Generator.Lookup(es, "PayloadDisplayName")
         == Some(Generator.PString(if preset.name == "" then Generator.DefaultDisplayName else preset.name))
      && Generator.Lookup(es, "PayloadDescription")
         == Some(Generator.PString(if preset.description == "" then Generator.DefaultDescription else preset.description))
      && Generator.Lookup(es, "PayloadUUID") == Some(Generator.PString(generated))
      && Generator.Lookup(es, "ConsentText") == None
  {
    Generator.EntryValues(ProfileFromPreset(preset), generated);
  }
}
