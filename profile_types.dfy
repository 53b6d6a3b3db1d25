/**
 * The records exchanged between the pages and the generator endpoint
 * (app/types/base.ts). They arrive as parsed JSON, so every property the
 * pages may leave out is optional here, even where the TypeScript
 * interface declares it as required.
 */
module ProfileTypes {
  import opened Wrappers

  /** A value of a payload-specific extension property (`string | boolean | number`; integral numbers only). */
  datatype FieldValue = Text(text: string) | Flag(flag: bool) | Number(number: int)

  /**
   * One configuration payload (`Payload` = `BasePayload` plus an open set of
   * properties). `PayloadType` is always present; the preset catalog leaves
   * out the UUID, identifier and version. `Extra` holds the other
   * properties in their insertion order.
   */
  datatype Payload = Payload(
    PayloadType: string,
    PayloadDisplayName: Option<string>,
    PayloadUUID: Option<string>,
    PayloadIdentifier: Option<string>,
    PayloadVersion: Option<int>,
    PayloadDescription: Option<string>,
    PayloadOrganization: Option<string>,
    Extra: seq<(string, FieldValue)>)

  /** The install scope of a profile. */
  datatype Scope = System | User

  /** The profile record (`MobileConfigProfile`) plus the `ConsentText` the generator also reads. */
  datatype Profile = Profile(
    PayloadContent: seq<Payload>,
    PayloadDescription: Option<string>,
    PayloadDisplayName: Option<string>,
    PayloadIdentifier: Option<string>,
    PayloadOrganization: Option<string>,
    PayloadRemovalDisallowed: Option<bool>,
    PayloadScope: Option<Scope>,
    PayloadType: Option<string>,
    PayloadUUID: Option<string>,
    PayloadVersion: Option<int>,
    ConsentText: Option<string>)

  /** A named template from the preset catalog. */
  datatype Preset = Preset(id: string, name: string, description: string, payloads: seq<Payload>)

  /** JavaScript truthiness of an optional string: absent and empty are falsy, anything else (whitespace too) is truthy. */
  predicate Truthy(s: Option<string>)
  {
    s.Some? && s.value != ""
  }

  /** JavaScript `s || fallback` for an optional string. */
  function OrElse(s: Option<string>, fallback: string): string
  {
    if Truthy(s) then s.value else fallback
  }
}
