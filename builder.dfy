/**
 * The profile builder page (app/routes/builder.tsx): the profile being
 * edited, and the edits the page makes to it. The page keeps the profile in
 * component state and replaces it on every edit; here that state is the
 * field `profile` of a `ProfileBuilder`, and each edit is a method that
 * reassigns it.
 */
module Builder {
  import opened Wrappers
  import opened ProfileTypes
  import opened Strings
  import Generator

  /** The profile the page starts with: three strings and no payloads. */
  const InitialProfile: Profile := Profile(
    PayloadContent := [],
    PayloadDescription := Some("Generated configuration profile"),
    PayloadDisplayName := Some("My Configuration Profile"),
    PayloadIdentifier := Some("com.example.profile"),
    PayloadOrganization := None,
    PayloadRemovalDisallowed := None,
    PayloadScope := None,
    PayloadType := None,
    PayloadUUID := None,
    PayloadVersion := None,
    ConsentText := None)

  /** The prefix of every identifier the page makes up. */
  const IdentifierPrefix: string := "com.example."

  /**
   * The payload `addPayload(payloadType)` appends; `uuid` stands for the
   * result of `crypto.randomUUID()`.
   */
  function NewPayload(payloadType: string, uuid: string): (np: Payload)
    ensures np.PayloadType == payloadType
    ensures np.PayloadDisplayName.Some?
    ensures var name := np.PayloadDisplayName.value;
      && |name| == |payloadType| + 14
      && name[..|payloadType|] == payloadType && name[|payloadType|..] == " Configuration"
    ensures np.PayloadIdentifier.Some?
    ensures var id := np.PayloadIdentifier.value;
      && |id| == |IdentifierPrefix| + |payloadType|
      && id[..|IdentifierPrefix|] == IdentifierPrefix
      && (forall i :: 0 <= i < |payloadType| ==> id[|IdentifierPrefix| + i] == LowerChar(payloadType[i]))
      && forall i :: 0 <= i < |id| ==> !('A' <= id[i] <= 'Z')
    ensures np.PayloadVersion == Some(1)
  {
    Payload(
      PayloadType := payloadType,
      PayloadDisplayName := Some(payloadType + " Configuration"),
      PayloadUUID := Some(uuid),
      PayloadIdentifier := Some(IdentifierPrefix + ToLowerCase(payloadType)),
      PayloadVersion := Some(1),
      PayloadDescription := None,
      PayloadOrganization := None,
      Extra := [])
  }

  /**
   * `s.filter((_, i) => i !== index)`: every element whose position differs
   * from `index`, in order. Written as the filter walks, one position at a
   * time; `RemoveAtIndex` says what it amounts to.
   */
  function WithoutIndex<T>(s: seq<T>, index: int): seq<T>
  {
    if |s| == 0 then []
    else WithoutIndex(s[..|s| - 1], index) + (if |s| - 1 != index then [s[|s| - 1]] else [])
  }

  /**
   * Filtering by position removes the element at `index` and keeps the
   * others in their order; an index outside the list removes nothing.
   */
  lemma {:induction false} RemoveAtIndex<T>(s: seq<T>, index: int)
    ensures WithoutIndex(s, index) == if 0 <= index < |s| then s[..index] + s[index + 1..] else s
  {
    if |s| > 0 {
      var init := s[..|s| - 1];
      RemoveAtIndex(init, index);
      if 0 <= index < |s| - 1 {
        assert init[..index] + init[index + 1..] + [s[|s| - 1]] == s[..index] + s[index + 1..];
      } else if index == |s| - 1 {
        assert init == s[..index];
        assert s[index + 1..] == [];
      } else {
        assert init + [s[|s| - 1]] == s;
      }
    }
  }

  /** Removing the payload just added gives back the list as it was. */
  lemma RemoveUndoesAdd<T>(s: seq<T>, x: T)
    ensures WithoutIndex(s + [x], |s|) == s
  {
    RemoveAtIndex(s + [x], |s|);
    assert (s + [x])[..|s|] == s;
  }

  /** The state of the builder page. */
  class ProfileBuilder {
    /** The profile being edited. */
    var profile: Profile
    /** Whether the list of payload types to add is open. */
    var showAddPayload: bool

    /**
     * What every edit keeps: the page's profile has its three strings and
     * never a UUID, consent text, organization, removal flag or scope.
     */
    ghost predicate Valid()
      reads this
    {
      && profile.PayloadDescription.Some?
      && profile.PayloadDisplayName.Some?
      && profile.PayloadIdentifier.Some?
      && profile.PayloadUUID == None
      && profile.ConsentText == None
      && profile.PayloadOrganization == None
      && profile.PayloadRemovalDisallowed == None
      && profile.PayloadScope == None
    }

    /** The page as it first renders. */
    constructor ()
      ensures Valid()
      ensures profile == InitialProfile && !showAddPayload
      ensures GenerateDisabled()
    {
      profile := InitialProfile;
      showAddPayload := false;
    }

    /** `addPayload(payloadType)`: append a new payload and close the type list. */
    method AddPayload(payloadType: string, uuid: string)
      requires Valid()
      modifies this
      ensures Valid()
      ensures profile == old(profile).(PayloadContent := old(profile.PayloadContent) + [NewPayload(payloadType, uuid)])
      ensures |profile.PayloadContent| == |old(profile.PayloadContent)| + 1
      ensures profile.PayloadContent[..|old(profile.PayloadContent)|] == old(profile.PayloadContent)
      ensures !showAddPayload
      ensures !GenerateDisabled()
    {
      profile := profile.(PayloadContent := profile.PayloadContent + [NewPayload(payloadType, uuid)]);
      showAddPayload := false;
    }

    /** `removePayload(index)`: drop the payload at `index`, if there is one. */
    method RemovePayload(index: int)
      requires Valid()
      modifies this`profile
      ensures Valid()
      ensures profile == old(profile).(PayloadContent := WithoutIndex(old(profile.PayloadContent), index))
      ensures 0 <= index < |old(profile.PayloadContent)| ==>
        profile.PayloadContent == old(profile.PayloadContent)[..index] + old(profile.PayloadContent)[index + 1..]
      ensures !(0 <= index < |old(profile.PayloadContent)|) ==> profile == old(profile)
      ensures GenerateDisabled() <==>
        |old(profile.PayloadContent)| == 0 || (|old(profile.PayloadContent)| == 1 && index == 0)
    {
      RemoveAtIndex(profile.PayloadContent, index);
      profile := profile.(PayloadContent := WithoutIndex(profile.PayloadContent, index));
    }

    /** The "+ Add Payload" button: open or close the list of payload types. */
    method ToggleAddPayload()
      modifies this`showAddPayload
      ensures showAddPayload == !old(showAddPayload)
    {
      showAddPayload := !showAddPayload;
    }

    /** Typing in the display-name field. */
    method SetDisplayName(value: string)
      requires Valid()
      modifies this`profile
      ensures Valid()
      ensures profile == old(profile).(PayloadDisplayName := Some(value))
      ensures GenerateDisabled() == old(GenerateDisabled())
    {
      profile := profile.(PayloadDisplayName := Some(value));
    }

    /** Typing in the identifier field. */
    method SetIdentifier(value: string)
      requires Valid()
      modifies this`profile
      ensures Valid()
      ensures profile == old(profile).(PayloadIdentifier := Some(value))
      ensures GenerateDisabled() == old(GenerateDisabled())
    {
      profile := profile.(PayloadIdentifier := Some(value));
    }

    /** Typing in the description field. */
    method SetDescription(value: string)
      requires Valid()
      modifies this`profile
      ensures Valid()
      ensures profile == old(profile).(PayloadDescription := Some(value))
      ensures GenerateDisabled() == old(GenerateDisabled())
    {
      profile := profile.(PayloadDescription := Some(value));
    }

    /**
     * The "Generate Profile" button is disabled exactly while the profile has
     * no payloads. The edits' contracts say how it changes: the page starts
     * disabled, adding a payload enables it, and removing disables it again
     * exactly when the last payload goes.
     */
    function GenerateDisabled(): (disabled: bool)
      reads this
      ensures disabled <==> profile.PayloadContent == []
    {
      |profile.PayloadContent| == 0
    }

    /**
     * What the page sends when Generate is pressed: the document carries the
     * generated UUID and no consent text, and does not depend on the
     * payloads, because the page never sets a UUID or consent text.
     */
    lemma SentDocument(generated: string)
      requires Valid()
      ensures Generator.GenerateMobileConfig(profile, generated)
           == Generator.GenerateMobileConfig(profile.(PayloadContent := []), generated)
      ensures Generator.Lookup(Generator.Entries(profile, generated), "PayloadUUID") == Some(Generator.PString(generated))
      ensures Generator.Lookup(Generator.Entries(profile, generated), "ConsentText") == None
    {
      BuilderDocument(profile, [], generated);
    }
  }

  /**
   * What the builder sends to the generator: its document carries the
   * generated UUID and no consent text, and adding or removing payloads
   * does not change it, because the generator writes the payload array
   * empty.
   */
  lemma BuilderDocument(p: Profile, content: seq<Payload>, generated: string)
    requires p.PayloadUUID == None && p.ConsentText == None
    ensures Generator.GenerateMobileConfig(p.(PayloadContent := content), generated)
         == Generator.GenerateMobileConfig(p, generated)
    ensures Generator.Lookup(Generator.Entries(p, generated), "PayloadUUID") == Some(Generator.PString(generated))
    ensures Generator.Lookup(Generator.Entries(p, generated), "ConsentText") == None
  {
    Generator.OnlyFiveFieldsMatter(p.(PayloadContent := content), p, generated);
    Generator.EntryValues(p, generated);
  }
}
