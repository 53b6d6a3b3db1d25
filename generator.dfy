/**
 * The profile document generator of the generate endpoint
 * (app/routes/api.generate.ts, `generateMobileConfig`).
 *
 * The source builds the document as a single template: fixed framing, a
 * fixed sequence of keys in the root dict, `||` defaults for three strings,
 * two constants, a UUID that is taken from the profile or freshly made, and
 * an optional consent text. Values are inserted verbatim, without escaping,
 * and the payload array is always written empty with a placeholder comment.
 *
 * `GenerateMobileConfig` is that template, character for character. The
 * UUID generator is a parameter: `generated` is the value `uuidv4()` would
 * return, and it is used only when the profile carries no truthy UUID.
 * `Entries` is the list of (key, value) entries the template writes, one
 * `<key>` and its value at a time; the lemma `GenerateRendersEntries` ties
 * the two together, and every other property is stated on whichever view
 * says it more plainly. Because values are not escaped, the entry list is
 * what a plist reader sees only when no string value holds markup:
 * `ValueCanForgeKey` shows a description that makes the text carry a key
 * the entry list does not have.
 */
module Generator {
  import opened Wrappers
  import opened ProfileTypes
  import opened Strings

  const XmlDeclaration: string := "<?xml version=\"1.0\" encoding=\"UTF-8\"?>"
  const Doctype: string := "<!DOCTYPE plist PUBLIC \"-//Apple//DTD PLIST 1.0//EN\" \"http://www.apple.com/DTDs/PropertyList-1.0.dtd\">"
  const PlistOpen: string := "<plist version=\"1.0\">"
  const ContentPlaceholder: string := "<!-- Payloads will be added here -->"

  const DefaultDescription: string := "Generated Configuration Profile"
  const DefaultDisplayName: string := "Configuration Profile"
  const DefaultIdentifier: string := "com.example.profile"
  /** The `PayloadType` written for every profile, whatever the input says. */
  const ProfileType: string := "Configuration"
  /** The `PayloadVersion` written for every profile, whatever the input says. */
  const ProfileVersion: nat := 1

  /** Everything before the first key: declaration, doctype, root element and the opening of the root dict. */
  const Prologue: string := XmlDeclaration + "\n" + Doctype + "\n" + PlistOpen + "\n<dict>"
  /** Everything after the last value. */
  const Epilogue: string := "\n</dict>\n</plist>"

  /** The UUID the document carries: the profile's own when truthy, else the generated one (`profile.PayloadUUID || uuidv4()`). */
  function ResolveUUID(p: Profile, generated: string): string
  {
    OrElse(p.PayloadUUID, generated)
  }

  /** A key line of the root dict followed by the line of its value, both indented by two spaces. */
  function KeyLine(key: string, valueText: string): string
  {
    "\n  <key>" + key + "</key>\n  " + valueText
  }

  /** A string value, inserted verbatim: no character is escaped. */
  function StringText(s: string): string
  {
    "<string>" + s + "</string>"
  }

  /** An integer value in decimal. */
  function IntegerText(n: nat): string
  {
    "<integer>" + NatToDecimal(n) + "</integer>"
  }

  /** The payload array, always written empty around a placeholder comment. */
  const EmptyArrayText: string := "<array>\n    " + ContentPlaceholder + "\n  </array>"

  /**
   * `generateMobileConfig(profile)`, with `generated` standing for the result
   * of `uuidv4()`. The template is written piece by piece, one key line and
   * its value per piece, in the order of the source.
   */
  function GenerateMobileConfig(p: Profile, generated: string): string
  {
    var uuid := ResolveUUID(p, generated);
    Prologue
    + KeyLine("PayloadContent", EmptyArrayText)
    + KeyLine("PayloadDescription", StringText(OrElse(p.PayloadDescription, DefaultDescription)))
    + KeyLine("PayloadDisplayName", StringText(OrElse(p.PayloadDisplayName, DefaultDisplayName)))
    + KeyLine("PayloadIdentifier", StringText(OrElse(p.PayloadIdentifier, DefaultIdentifier)))
    + KeyLine("PayloadType", StringText("Configuration"))
    + KeyLine("PayloadUUID", StringText(uuid))
    + KeyLine("PayloadVersion", IntegerText(1))
    + (if Truthy(p.ConsentText) then KeyLine("ConsentText", StringText(p.ConsentText.value)) else "")
    + Epilogue
  }

  // ---------------------------------------------------------------------
  // The (key, value) view of the document
  // ---------------------------------------------------------------------

  /** The three kinds of value the template writes. */
  datatype Value = PString(text: string) | PInteger(number: nat) | PEmptyArray

  /** One `<key>` of the root dict with the value that follows it. */
  datatype Entry = Entry(key: string, value: Value)

  /** The entries the template writes into the root dict, in document order. */
  function Entries(p: Profile, generated: string): seq<Entry>
  {
    [ Entry("PayloadContent", PEmptyArray),
      Entry("PayloadDescription", PString(OrElse(p.PayloadDescription, DefaultDescription))),
      Entry("PayloadDisplayName", PString(OrElse(p.PayloadDisplayName, DefaultDisplayName))),
      Entry("PayloadIdentifier", PString(OrElse(p.PayloadIdentifier, DefaultIdentifier))),
      Entry("PayloadType", PString(ProfileType)),
      Entry("PayloadUUID", PString(ResolveUUID(p, generated))),
      Entry("PayloadVersion", PInteger(ProfileVersion)) ]
    + (if Truthy(p.ConsentText) then [Entry("ConsentText", PString(p.ConsentText.value))] else [])
  }

  /** The keys the document always has, in their order. */
  const BaseKeys: seq<string> := ["PayloadContent", "PayloadDescription", "PayloadDisplayName",
    "PayloadIdentifier", "PayloadType", "PayloadUUID", "PayloadVersion"]

  /** The keys of a list of entries, in order. */
  function Keys(es: seq<Entry>): seq<string>
  {
    seq(|es|, i requires 0 <= i < |es| => es[i].key)
  }

  /** The value of the first entry with key `k` in an entry list. */
  function Lookup(es: seq<Entry>, k: string): Option<Value>
  {
    if |es| == 0 then None
    else if es[0].key == k then Some(es[0].value)
    else Lookup(es[1..], k)
  }

  /** A value as the template writes it. */
  function RenderValue(v: Value): string
  {
    match v
    case PString(s) => StringText(s)
    case PInteger(n) => IntegerText(n)
    case PEmptyArray => EmptyArrayText
  }

  /** One entry: its key line and its value. */
  function RenderEntry(e: Entry): string
  {
    KeyLine(e.key, RenderValue(e.value))
  }

  /** `acc` followed by the entries, written one after the other. */
  function WriteEntries(acc: string, es: seq<Entry>): string
    decreases |es|
  {
    if |es| == 0 then acc else WriteEntries(acc + RenderEntry(es[0]), es[1..])
  }

  /** The document for a list of root entries: the prologue, each entry in turn, the epilogue. */
  function Document(es: seq<Entry>): string
  {
    WriteEntries(Prologue, es) + Epilogue
  }

  // ---------------------------------------------------------------------
  // Lookup in an entry list
  // ---------------------------------------------------------------------

  /** The first entry carrying a key is the one a lookup finds. */
  lemma {:induction false} LookupFirst(es: seq<Entry>, i: nat, k: string)
    requires i < |es| && es[i].key == k
    requires forall j :: 0 <= j < i ==> es[j].key != k
    ensures Lookup(es, k) == Some(es[i].value)
  {
    if i > 0 {
      LookupFirst(es[1..], i - 1, k);
    }
  }

  /** A key carried by no entry is not found. */
  lemma {:induction false} LookupMissing(es: seq<Entry>, k: string)
    requires forall j :: 0 <= j < |es| ==> es[j].key != k
    ensures Lookup(es, k) == None
  {
    if |es| > 0 {
      LookupMissing(es[1..], k);
    }
  }

  /** Writing entries after `acc` is `acc` followed by what they write on their own. */
  lemma {:induction false} WriteEntriesAfter(acc: string, es: seq<Entry>)
    ensures WriteEntries(acc, es) == acc + WriteEntries("", es)
    decreases |es|
  {
    if |es| > 0 {
      WriteEntriesAfter(acc + RenderEntry(es[0]), es[1..]);
      WriteEntriesAfter(RenderEntry(es[0]), es[1..]);
      assert "" + RenderEntry(es[0]) == RenderEntry(es[0]);
    }
  }

  // ---------------------------------------------------------------------
  // Properties of the generated document
  // ---------------------------------------------------------------------

  /** Writing a list of at least seven entries: the first seven one after the other, then the rest. */
  lemma WriteSevenThenRest(acc: string, es: seq<Entry>)
    requires |es| >= 7
    ensures WriteEntries(acc, es)
         == acc + RenderEntry(es[0]) + RenderEntry(es[1]) + RenderEntry(es[2]) + RenderEntry(es[3])
            + RenderEntry(es[4]) + RenderEntry(es[5]) + RenderEntry(es[6]) + WriteEntries("", es[7..])
  {
    var w0 := acc + RenderEntry(es[0]);
    var w1 := w0 + RenderEntry(es[1]);
    var w2 := w1 + RenderEntry(es[2]);
    var w3 := w2 + RenderEntry(es[3]);
    var w4 := w3 + RenderEntry(es[4]);
    var w5 := w4 + RenderEntry(es[5]);
    var w6 := w5 + RenderEntry(es[6]);
    assert WriteEntries(acc, es) == WriteEntries(w0, es[1..]);
    assert WriteEntries(w0, es[1..]) == WriteEntries(w1, es[2..]) by { assert es[1..][1..] == es[2..]; }
    assert WriteEntries(w1, es[2..]) == WriteEntries(w2, es[3..]) by { assert es[2..][1..] == es[3..]; }
    assert WriteEntries(w2, es[3..]) == WriteEntries(w3, es[4..]) by { assert es[3..][1..] == es[4..]; }
    assert WriteEntries(w3, es[4..]) == WriteEntries(w4, es[5..]) by { assert es[4..][1..] == es[5..]; }
    assert WriteEntries(w4, es[5..]) == WriteEntries(w5, es[6..]) by { assert es[5..][1..] == es[6..]; }
    assert WriteEntries(w5, es[6..]) == WriteEntries(w6, es[7..]) by { assert es[6..][1..] == es[7..]; }
    WriteEntriesAfter(w6, es[7..]);
  }

  /** The template is the framing around the entries, each written as `<key>` and value. */
  lemma GenerateRendersEntries(p: Profile, generated: string)
    ensures GenerateMobileConfig(p, generated) == Document(Entries(p, generated))
  {
    var es := Entries(p, generated);
    var consent := if Truthy(p.ConsentText) then KeyLine("ConsentText", StringText(p.ConsentText.value)) else "";
    assert WriteEntries("", es[7..]) == consent by {
      if Truthy(p.ConsentText) {
        assert es[7..][1..] == [];
        assert "" + RenderEntry(es[7]) == consent;
      } else {
        assert es[7..] == [];
      }
    }
    WriteSevenThenRest(Prologue, es);
  }

  /**
   * The template writes exactly the seven base keys in their fixed order,
   * then `ConsentText` exactly when the consent text is truthy; no key twice.
   */
  lemma EntryKeys(p: Profile, generated: string)
    ensures Keys(Entries(p, generated)) == BaseKeys + (if Truthy(p.ConsentText) then ["ConsentText"] else [])
    ensures var ks := Keys(Entries(p, generated));
      forall i, j :: 0 <= i < j < |ks| ==> ks[i] != ks[j]
  {
    var ks := Keys(Entries(p, generated));
    assert ks == BaseKeys + (if Truthy(p.ConsentText) then ["ConsentText"] else []);
  }

  /** The value the template writes under each of its keys. */
  lemma EntryValues(p: Profile, generated: string)
    ensures var es := Entries(p, generated);
      && Lookup(es, "PayloadContent") == Some(PEmptyArray)
      && Lookup(es, "PayloadDescription") == Some(PString(OrElse(p.PayloadDescription, DefaultDescription)))
      && Lookup(es, "PayloadDisplayName") == Some(PString(OrElse(p.PayloadDisplayName, DefaultDisplayName)))
      && Lookup(es, "PayloadIdentifier") == Some(PString(OrElse(p.PayloadIdentifier, DefaultIdentifier)))
      && Lookup(es, "PayloadType") == Some(PString(ProfileType))
      && Lookup(es, "PayloadUUID") == Some(PString(ResolveUUID(p, generated)))
      && Lookup(es, "PayloadVersion") == Some(PInteger(ProfileVersion))
      && Lookup(es, "ConsentText") == (if Truthy(p.ConsentText) then Some(PString(p.ConsentText.value)) else None)
  {
    var es := Entries(p, generated);
    EntryKeys(p, generated);
    var ks := Keys(es);
    forall i | 0 <= i < |ks|
      ensures Lookup(es, ks[i]) == Some(es[i].value)
    {
      LookupFirst(es, i, ks[i]);
    }
    assert ks[0] == "PayloadContent" && ks[1] == "PayloadDescription" && ks[2] == "PayloadDisplayName";
    assert ks[3] == "PayloadIdentifier" && ks[4] == "PayloadType" && ks[5] == "PayloadUUID" && ks[6] == "PayloadVersion";
    if Truthy(p.ConsentText) {
      assert ks[7] == "ConsentText";
    } else {
      assert forall j :: 0 <= j < |es| ==> es[j].key == BaseKeys[j];
      LookupMissing(es, "ConsentText");
    }
  }

  /** Only the listed keys are ever written: any other key, such as the profile's organization, removal flag or scope, is absent. */
  lemma OtherKeysAbsent(p: Profile, generated: string, k: string)
    requires k !in BaseKeys && k != "ConsentText"
    ensures Lookup(Entries(p, generated), k) == None
  {
    var es := Entries(p, generated);
    EntryKeys(p, generated);
    assert forall j :: 0 <= j < |es| ==> Keys(es)[j] in BaseKeys + ["ConsentText"];
    LookupMissing(es, k);
  }

  /** A truthy profile UUID is written as it is; otherwise the generated one is written, under the one `PayloadUUID` key. */
  lemma UUIDResolution(p: Profile, generated: string)
    ensures Truthy(p.PayloadUUID) ==> Lookup(Entries(p, generated), "PayloadUUID") == Some(PString(p.PayloadUUID.value))
    ensures !Truthy(p.PayloadUUID) ==> Lookup(Entries(p, generated), "PayloadUUID") == Some(PString(generated))
  {
    EntryValues(p, generated);
  }

  /** When the profile carries a truthy UUID the generator's output is not used at all. */
  lemma SuppliedUUIDIgnoresGenerator(p: Profile, g1: string, g2: string)
    requires Truthy(p.PayloadUUID)
    ensures GenerateMobileConfig(p, g1) == GenerateMobileConfig(p, g2)
  {
  }

  /**
   * Resolving the UUID is stable: supplying the UUID that was generated for
   * a profile reproduces the same document, whatever the generator would
   * now return.
   */
  lemma ResolvedUUIDIsStable(p: Profile, generated: string, later: string)
    requires !Truthy(p.PayloadUUID) && generated != ""
    ensures GenerateMobileConfig(p.(PayloadUUID := Some(generated)), later) == GenerateMobileConfig(p, generated)
  {
  }

  /**
   * `||` defaulting: an absent or empty description, display name or
   * identifier is replaced by its literal default, and any other value,
   * whitespace included, is kept.
   */
  lemma DefaultsForFalsyFields(p: Profile, generated: string)
    ensures var es := Entries(p, generated);
      && (p.PayloadDescription == None || p.PayloadDescription == Some("")
          ==> Lookup(es, "PayloadDescription") == Some(PString(DefaultDescription)))
      && (p.PayloadDisplayName == None || p.PayloadDisplayName == Some("")
          ==> Lookup(es, "PayloadDisplayName") == Some(PString(DefaultDisplayName)))
      && (p.PayloadIdentifier == None || p.PayloadIdentifier == Some("")
          ==> Lookup(es, "PayloadIdentifier") == Some(PString(DefaultIdentifier)))
      && (Truthy(p.PayloadDescription) ==> Lookup(es, "PayloadDescription") == Some(PString(p.PayloadDescription.value)))
      && (Truthy(p.PayloadDisplayName) ==> Lookup(es, "PayloadDisplayName") == Some(PString(p.PayloadDisplayName.value)))
      && (Truthy(p.PayloadIdentifier) ==> Lookup(es, "PayloadIdentifier") == Some(PString(p.PayloadIdentifier.value)))
  {
    EntryValues(p, generated);
  }

  /**
   * A whitespace-only string is truthy, so a description, display name or
   * identifier made only of blanks is written as it is, not replaced by the
   * default: `||` tests emptiness, not blankness.
   */
  lemma WhitespaceIsNotDefaulted(p: Profile, generated: string, s: string)
    requires |s| > 0 && forall i :: 0 <= i < |s| ==> s[i] in " \t\n\r"
    ensures p.PayloadDescription == Some(s) ==> Lookup(Entries(p, generated), "PayloadDescription") == Some(PString(s))
    ensures p.PayloadDisplayName == Some(s) ==> Lookup(Entries(p, generated), "PayloadDisplayName") == Some(PString(s))
    ensures p.PayloadIdentifier == Some(s) ==> Lookup(Entries(p, generated), "PayloadIdentifier") == Some(PString(s))
  {
    EntryValues(p, generated);
  }

  /**
   * The document depends on five fields of the profile only: description,
   * display name, identifier, UUID and consent text. Its payload list, its
   * own `PayloadType` and `PayloadVersion`, organization, removal flag and
   * scope change nothing.
   */
  lemma OnlyFiveFieldsMatter(p: Profile, q: Profile, generated: string)
    requires p.PayloadDescription == q.PayloadDescription
    requires p.PayloadDisplayName == q.PayloadDisplayName
    requires p.PayloadIdentifier == q.PayloadIdentifier
    requires p.PayloadUUID == q.PayloadUUID
    requires p.ConsentText == q.ConsentText
    ensures GenerateMobileConfig(p, generated) == GenerateMobileConfig(q, generated)
  {
  }

  /** `ConsentText` is written exactly when it is truthy, and then as the last key of the dict. */
  lemma ConsentTextIsLast(p: Profile, generated: string)
    ensures var es := Entries(p, generated);
      && (Lookup(es, "ConsentText").Some? <==> Truthy(p.ConsentText))
      && (Truthy(p.ConsentText) ==> es[|es| - 1] == Entry("ConsentText", PString(p.ConsentText.value)))
  {
    EntryValues(p, generated);
  }

  /** A string value of some entry appears, as it is, in what the entries write. */
  lemma {:induction false} WrittenStringOccurs(es: seq<Entry>, i: nat, v: string)
    requires i < |es| && es[i].value == PString(v)
    ensures Contains(WriteEntries("", es), v)
    decreases |es|
  {
    var first := RenderEntry(es[0]);
    WriteEntriesAfter(first, es[1..]);
    assert "" + first == first;
    assert WriteEntries("", es) == first + WriteEntries("", es[1..]);
    if i == 0 {
      RenderedStringOccurs(es[0].key, v);
      ContainsInLeft(first, WriteEntries("", es[1..]), v);
    } else {
      WrittenStringOccurs(es[1..], i - 1, v);
      ContainsInRight(first, WriteEntries("", es[1..]), v);
    }
  }

  /** A string entry's text holds the string as it is. */
  lemma RenderedStringOccurs(key: string, v: string)
    ensures Contains(RenderEntry(Entry(key, PString(v))), v)
  {
    ContainsSelf(v);
    ContainsInConcat("<string>", v, "</string>", v);
    ContainsInRight("\n  <key>" + key + "</key>\n  ", StringText(v), v);
  }

  /** A key a lookup finds is carried by an entry, whose value is the one found. */
  lemma {:induction false} LookupFound(es: seq<Entry>, k: string) returns (i: nat)
    requires Lookup(es, k).Some?
    ensures i < |es| && es[i].key == k && Lookup(es, k) == Some(es[i].value)
  {
    if es[0].key == k {
      i := 0;
    } else {
      var j := LookupFound(es[1..], k);
      i := j + 1;
    }
  }

  /** The string a lookup finds occurs in the document written for the entries. */
  lemma DocumentContains(es: seq<Entry>, k: string, v: string)
    requires Lookup(es, k) == Some(PString(v))
    ensures Contains(Document(es), v)
  {
    var i := LookupFound(es, k);
    WriteEntriesAfter(Prologue, es);
    WrittenStringOccurs(es, i, v);
    ContainsInConcat(Prologue, WriteEntries("", es), Epilogue, v);
  }

  /** The document written for any entries starts with the prologue and ends with the epilogue. */
  lemma DocumentFramed(es: seq<Entry>)
    ensures Prologue <= Document(es)
    ensures |Document(es)| >= |Epilogue| && Document(es)[|Document(es)| - |Epilogue|..] == Epilogue
  {
    WriteEntriesAfter(Prologue, es);
    var doc := Prologue + WriteEntries("", es) + Epilogue;
    assert doc[..|Prologue|] == Prologue;
    assert doc[|doc| - |Epilogue|..] == Epilogue;
  }

  /**
   * The document begins with the XML declaration, the property-list doctype
   * and the `<plist version="1.0">` root, each on its own line, then opens the
   * root dict; it ends by closing the root dict and the root element.
   */
  lemma DocumentFraming(p: Profile, generated: string)
    ensures var doc := GenerateMobileConfig(p, generated);
      && Prologue <= doc
      && |doc| >= |Epilogue| && doc[|doc| - |Epilogue|..] == Epilogue
  {
    GenerateRendersEntries(p, generated);
    DocumentFramed(Entries(p, generated));
  }

  /**
   * Values are written verbatim, without escaping: the description, display
   * name, identifier, UUID and (when truthy) consent text each occur in the
   * document exactly as they were resolved.
   */
  lemma ValuesAppearVerbatim(p: Profile, generated: string)
    ensures var doc := GenerateMobileConfig(p, generated);
      && Contains(doc, OrElse(p.PayloadDescription, DefaultDescription))
      && Contains(doc, OrElse(p.PayloadDisplayName, DefaultDisplayName))
      && Contains(doc, OrElse(p.PayloadIdentifier, DefaultIdentifier))
      && Contains(doc, ResolveUUID(p, generated))
      && (Truthy(p.ConsentText) ==> Contains(doc, p.ConsentText.value))
  {
    var es := Entries(p, generated);
    GenerateRendersEntries(p, generated);
    EntryValues(p, generated);
    DocumentContains(es, "PayloadDescription", OrElse(p.PayloadDescription, DefaultDescription));
    DocumentContains(es, "PayloadDisplayName", OrElse(p.PayloadDisplayName, DefaultDisplayName));
    DocumentContains(es, "PayloadIdentifier", OrElse(p.PayloadIdentifier, DefaultIdentifier));
    DocumentContains(es, "PayloadUUID", ResolveUUID(p, generated));
    if Truthy(p.ConsentText) {
      DocumentContains(es, "ConsentText", p.ConsentText.value);
    }
  }

  /** The value used to forge a key holds the key's markup. */
  lemma ForgedKeyInValue(k: string, d: string)
    requires d == "</string>\n  <key>" + k + "</key>\n  <string>"
    ensures Contains(d, "<key>" + k + "</key>")
  {
    var forged := "<key>" + k + "</key>";
    assert d == "</string>\n  " + forged + "\n  <string>";
    assert d[12..12 + |forged|] == forged;
    assert OccursAt(d, forged, 12);
  }

  /**
   * Values are not escaped, so a value can write markup of its own: a
   * description that closes its `<string>` and opens a `<key>` makes the
   * document text carry that key, although the entry list the template
   * writes has no entry for it. A plist reader would see key `k`.
   */
  lemma ValueCanForgeKey(p: Profile, generated: string, k: string)
    requires k !in BaseKeys && k != "ConsentText"
    requires p.PayloadDescription == Some("</string>\n  <key>" + k + "</key>\n  <string>")
    ensures Contains(GenerateMobileConfig(p, generated), "<key>" + k + "</key>")
    ensures Lookup(Entries(p, generated), k) == None
  {
    var d := p.PayloadDescription.value;
    var forged := "<key>" + k + "</key>";
    ForgedKeyInValue(k, d);
    assert Contains(GenerateMobileConfig(p, generated), d) by {
      GenerateRendersEntries(p, generated);
      EntryValues(p, generated);
      DocumentContains(Entries(p, generated), "PayloadDescription", d);
    }
    ContainsTransitive(GenerateMobileConfig(p, generated), d, forged);
    OtherKeysAbsent(p, generated, k);
  }
}
