# Mobile Config Generator — a Dafny model

A web application that turns a profile (display name, description,
identifier, UUID, optional consent text and a list of payloads) into an
Apple configuration profile: an XML property-list document served as
`application/x-apple-aspen-config`. This project models the part of the
application that decides what goes into that document and what the pages
send to it:

- `generator.dfy` (module `Generator`): `generateMobileConfig` of
  `app/routes/api.generate.ts`, the template that writes the document. `GenerateMobileConfig` is the template
  text itself. `Entries` is the list of (key, value) entries the template
  writes into the root dict. The properties are lemmas about the two views. The
  UUID generator is a parameter (`generated`).
- `builder.dfy` (module `Builder`): the builder page's profile state. It is
  a class `ProfileBuilder` whose methods reassign the profile, as the page's
  `setProfile` updates do: add a payload, remove a payload by index, edit
  the three text fields, toggle the payload-type list. A `Valid()`
  invariant says the page never sets a UUID or consent text.
- `presets.dfy` (module `Presets`): the presets page's profile built from a preset, the
  download file name, and the short payload-type labels joined by `", "`.
- `seo.dfy` (module `Seo`): `app/utils/seo.ts`, the site and page constants, the sixteen meta
  tags of a page, and the schema.org record of a page. JavaScript object
  spread is modelled on ordered field lists: an existing key is replaced in
  place and a new key goes at the end.
- `profile_types.dfy` (module `ProfileTypes`): the records of
  `app/types/base.ts`, plus JavaScript truthiness and `||` on optional
  strings. `strings.dfy` (module `Strings`): the JavaScript string
  operations the code uses (`join`, `split`, `pop`, ASCII `toLowerCase`,
  integer printing). `wrappers.dfy`: `Option`.

The code generates far less than a general plist encoder would. It has no
value encoder and no escaping. It always writes the payload array empty,
with a placeholder comment. The template itself never writes organization,
removal flag or scope. Because values are inserted unescaped, the entry list
is what a plist reader sees only when no string value holds markup. The model follows the code, not a description of a richer
serializer.

## Model

| member | source | states |
|---|---|---|
| Generator.GenerateRendersEntries | app/routes/api.generate.ts:34-61 | The template text is the XML declaration, doctype and `<plist version="1.0"><dict>` prologue, then each root entry in order as a `<key>` line and its value line, then the closing `</dict></plist>`. |
| Generator.EntryKeys | app/routes/api.generate.ts:38-57 | The keys the template writes are exactly PayloadContent, PayloadDescription, PayloadDisplayName, PayloadIdentifier, PayloadType, PayloadUUID, PayloadVersion in this order. ConsentText follows exactly when the consent text is truthy. No key appears twice. |
| Generator.EntryValues | app/routes/api.generate.ts:32-59 | The value the template writes under each of its keys: the empty array, the three defaulted strings, the constant `Configuration`, the resolved UUID, the integer 1, and the consent text (absent when falsy). |
| Generator.OtherKeysAbsent | app/routes/api.generate.ts:37-60 | Any other key has no entry in the list the template writes. This includes PayloadOrganization, PayloadRemovalDisallowed and PayloadScope, which the profile type declares. |
| Generator.UUIDResolution | app/routes/api.generate.ts:32-51 | A truthy profile UUID is written verbatim under PayloadUUID. Otherwise the generated UUID is written there. |
| Generator.SuppliedUUIDIgnoresGenerator | app/routes/api.generate.ts:32 | With a truthy profile UUID, the document does not depend on the generator. |
| Generator.ResolvedUUIDIsStable | app/routes/api.generate.ts:32-51 | Supplying the UUID that was generated for a profile gives the same document, byte for byte. |
| Generator.DefaultsForFalsyFields | app/routes/api.generate.ts:42-47 | An absent or empty description, display name or identifier becomes `Generated Configuration Profile`, `Configuration Profile` or `com.example.profile`. Any non-empty value is kept. |
| Generator.WhitespaceIsNotDefaulted | app/routes/api.generate.ts:42-47 | A non-empty description, display name or identifier made only of spaces, tabs or line breaks is truthy, so it is written as given instead of the default. |
| Generator.OnlyFiveFieldsMatter | app/routes/api.generate.ts:31-61 | The document depends only on description, display name, identifier, UUID and consent text. Payload list, input PayloadType, PayloadVersion, organization, removal flag and scope have no effect. |
| Generator.ConsentTextIsLast | app/routes/api.generate.ts:53-59 | ConsentText is present exactly when it is truthy. When present, it is the last entry of the dict. |
| Generator.DocumentFraming | app/routes/api.generate.ts:34-61 | The document begins with the XML declaration line, the Apple PLIST 1.0 doctype line, `<plist version="1.0">` and `<dict>`. It ends with `\n</dict>\n</plist>`. |
| Generator.ValuesAppearVerbatim | app/routes/api.generate.ts:43-57 | The resolved description, display name, identifier and UUID, and a truthy consent text, each occur unescaped in the document. |
| Generator.ValueCanForgeKey | app/routes/api.generate.ts:42-43 | Because values are not escaped, a description that closes its `<string>` and opens `<key>k</key>` makes the document text contain that key, while the entry list has no entry for `k`. |
| Generator.WrittenStringOccurs | app/routes/api.generate.ts:43-57 | The string value of any entry occurs verbatim in the text the entries write. |
| Builder.NewPayload | app/routes/builder.tsx:24-30 | The new payload has the chosen type. Its display name is the type followed by ` Configuration`. Its identifier is `com.example.` followed by the type lower-cased character by character, so it has no upper-case letter. Its version is 1. |
| Builder.RemoveAtIndex | app/routes/builder.tsx:39-43 | Filtering by position removes exactly the element at an in-range index and keeps the others in order. An out-of-range index leaves the list unchanged. |
| Builder.RemoveUndoesAdd | app/routes/builder.tsx:23-43 | Removing the payload at the index just appended gives back the previous list. |
| Builder.ProfileBuilder.constructor | app/routes/builder.tsx:14-21 | The page starts with display name `My Configuration Profile`, description `Generated configuration profile`, identifier `com.example.profile`, no payloads and the type list closed. Generate starts disabled. |
| Builder.ProfileBuilder.AddPayload | app/routes/builder.tsx:23-37 | The payload list grows by exactly the new payload at its end. Earlier payloads are unchanged and in order. Every other profile field is unchanged. The type list closes. Generate is enabled afterwards. |
| Builder.ProfileBuilder.RemovePayload | app/routes/builder.tsx:39-44 | The payload at an in-range index is removed and the rest keep their order. An out-of-range index changes nothing. Other profile fields are unchanged. Generate becomes disabled exactly when the list was empty or held one payload removed at index 0. |
| Builder.ProfileBuilder.ToggleAddPayload | app/routes/builder.tsx:144 | The "+ Add Payload" button flips whether the type list is shown. |
| Builder.ProfileBuilder.SetDisplayName | app/routes/builder.tsx:101-102 | Editing the display name changes that field only, and leaves the Generate button as it was. |
| Builder.ProfileBuilder.SetIdentifier | app/routes/builder.tsx:115-116 | Editing the identifier changes that field only, and leaves the Generate button as it was. |
| Builder.ProfileBuilder.SetDescription | app/routes/builder.tsx:128-129 | Editing the description changes that field only, and leaves the Generate button as it was. |
| Builder.ProfileBuilder.GenerateDisabled | app/routes/builder.tsx:196 | The Generate button is disabled exactly when the profile has no payloads. How that changes is stated on the edits: the constructor, AddPayload, RemovePayload and the three setters. |
| Builder.ProfileBuilder.SentDocument | app/routes/builder.tsx:46-48 | With the page's invariant, the document for the page's profile carries the generated UUID and no ConsentText, and does not depend on the payloads. |
| Builder.BuilderDocument | app/routes/builder.tsx:46-48 | For the builder's profile (no UUID, no consent text), the document carries the generated UUID and no ConsentText. Adding or removing payloads leaves the document unchanged. |
| Presets.DownloadFilename | app/routes/presets.tsx:42 | The file name is the preset id followed by `.mobileconfig`, and splits back into the two. |
| Presets.TypeLabel | app/routes/presets.tsx:79 | The label is the suffix of the payload type after its last `.`. It holds no `.`. It is the whole type exactly when the type has no `.`. |
| Presets.LabelSpansJoin | app/routes/presets.tsx:77-81 | The per-payload spans, each followed by `", "` unless it is the last, write the labels joined by `", "`. |
| Presets.LabelSeparators | app/routes/presets.tsx:77-81 | n labels are written with exactly n - 1 separators. |
| Presets.PresetProfile | app/routes/presets.tsx:22-27 | The profile built from a preset has its name, description and payloads (same elements, same order). Its identifier is `com.example.` followed by the preset id. It has no UUID and no consent text. |
| Presets.PresetDocument | app/routes/presets.tsx:22-27 | A preset's document has identifier `com.example.` plus the id, which is never defaulted. Name and description are the preset's unless empty. The UUID is the generated one. There is no ConsentText. |
| Seo.MetaTagsShape | app/utils/seo.ts:97-123 | Every page gets exactly 16 meta tags, of the same kinds in the same fixed order. |
| Seo.KeywordsContent | app/utils/seo.ts:90-101 | The keywords tag is the site keywords followed by the page keywords, joined with `", "`. With no page keywords it is the site keywords alone. |
| Seo.RobotsContent | app/utils/seo.ts:92-106 | Robots is `noindex, nofollow` exactly when `noIndex` is true. It is `index, follow` otherwise, including when `noIndex` is left out. |
| Seo.PageFieldsRepeated | app/utils/seo.ts:94-120 | `og:url` is the site URL followed by the path. The title appears unchanged in the title, `og:title` and `twitter:title` tags. The description appears in its three tags. |
| Seo.AssignGet | app/utils/seo.ts:153-176 | After a spread override, the overridden key holds its new value. Every other key keeps its old value. |
| Seo.AssignKeys | app/utils/seo.ts:153-176 | A spread override keeps the key order. A key is added, at the end, only when it is new. |
| Seo.BaseDataKeys | app/utils/seo.ts:129-150 | The base record has nine keys, in the order written. |
| Seo.BaseKeysSpreadFacts | app/utils/seo.ts:129-176 | The base record has the `@type`, `name` and `description` keys the page spreads replace. It has none of the keys they add: `applicationSubCategory`, `numberOfItems`, `genre`. |
| Seo.PageConfigTexts | app/utils/seo.ts:159-174 | The texts the spreads read from the page config are the builder description, the presets description, and the docs title and description. |
| Seo.StructuredDataHome | app/utils/seo.ts:126-178 | With no argument or `home`, the record is the base record unchanged. |
| Seo.BuilderOverrides | app/utils/seo.ts:154-160 | The builder spread keeps `@type` `WebApplication`, sets the description from the builder page's config and appends `applicationSubCategory`. Every other key keeps its value and place. |
| Seo.PresetsOverrides | app/utils/seo.ts:161-168 | The presets spread sets `@type` `ItemList`, a new name and the description from the presets page's config, and appends `numberOfItems` = 5. Every other key keeps its value and place. |
| Seo.DocsOverrides | app/utils/seo.ts:169-176 | The docs spread sets `@type` `TechArticle`, the title and description from the docs page's config, and appends `genre` `Documentation`. Every other key keeps its value and place. |
| Seo.StructuredDataBuilder | app/utils/seo.ts:153-160 | The builder page's record, stated on the actual output. |
| Seo.StructuredDataPresets | app/utils/seo.ts:153-168 | The presets page's record, stated on the actual output. |
| Seo.StructuredDataDocs | app/utils/seo.ts:153-176 | The docs page's record, stated on the actual output. |
| Strings.LastPieceIsSuffix | app/routes/presets.tsx:79 | `split('.').pop()` is the suffix after the last separator, or the whole string when there is none. |
| Strings.JoinAppend | app/utils/seo.ts:95 | Joining two non-empty lists is joining each and putting one separator between them. |
| Strings.SplitJoin | app/routes/presets.tsx:79 | Splitting on a character and joining back with it gives the original string. |

## Left out

- The generate endpoint's `action` is not modelled. It reads form data, runs `JSON.parse`, and returns HTTP status codes and headers. The generator takes an already parsed profile record.
- UUID generation (`uuidv4()` in the endpoint, `crypto.randomUUID()` in the builder) is random. The value it would return is a parameter.
- Fetching, `Blob`, object URLs, the download link and all JSX rendering are left out. Only the values they carry are modelled: the profile sent, the file name, the label text and the disabled flag.
- The loaders of the presets and docs pages, the home page, the payload-type and preset catalog endpoints, and `app/utils/site.ts` are not part of this model. They fetch, return constant catalogs, or wrap the platform URL parser.
- A non-string `ConsentText` is not modelled. Template interpolation would print `[object Object]` for it. Consent text is an optional string here.
- JSON numbers in payload extension fields are integers only. Floating-point values are not modelled.
- `toLowerCase` is modelled for ASCII letters only. Non-ASCII case mapping is not modelled.
- Builder.NewPayload: the `PayloadUUID` it sets is whatever UUID is passed in. Its contract says nothing about the UUID's format or uniqueness.
- Seo.StructuredDataPresets: `numberOfItems` is the constant 5, as written. The preset catalog in `app/routes/api.presets.ts` lists three presets; the source comment says the number is meant to be updated by hand.
- Generator.EntryKeys, Generator.EntryValues, Generator.OtherKeysAbsent: these describe the entry list the template writes. That list is what a plist reader of the text sees only when no string value contains `<` or `&`. Values are interpolated unescaped, so markup in a value can add keys (Generator.ValueCanForgeKey) or make the XML ill-formed. The model does not describe how an XML parser reads such text.
- A general plist value encoder, XML escaping, payload serialisation and trim-based omission of optional fields are not modelled. The generator has none of them: it writes a fixed template.
