/**
 * The search-engine metadata of the site (app/utils/seo.ts): the site and
 * page constants, the list of meta tags for a page, and the schema.org
 * record for a page.
 *
 * JavaScript objects are written as ordered lists of fields, because object
 * spread keeps the order of keys: `{ ...base, k: v }` replaces the value of
 * `k` in place when `base` has it, and otherwise adds `k` at the end.
 */
module Seo {
  import opened Wrappers
  import opened Strings

  // ---------------------------------------------------------------------
  // Site and page constants (SITE_CONFIG, PAGE_CONFIG)
  // ---------------------------------------------------------------------

  const SiteName: string := "Mobile Config Generator"
  const SiteDescription: string := "Free online tool to generate Apple mobileconfig configuration profiles for iOS and macOS devices. Supports Wi-Fi, VPN, DNS, Web Content Filter, Email settings and more. No signup required."
  const SiteUrl: string := "https://mobileconfig.pages.dev"
  const SiteAuthor: string := "Mobile Config Generator"
  const SiteKeywords: seq<string> := ["mobileconfig", "Apple", "iOS", "macOS", "configuration profile", "MDM",
    "device management", "Wi-Fi", "VPN", "DNS", "web content filter", "email settings"]

  const BuilderDescription: string := "Interactive profile builder for Apple mobileconfig files. Configure Wi-Fi, VPN, DNS, Web Content Filter, and Email settings with detailed payload options. Generate iOS and macOS profiles instantly."
  const PresetsDescription: string := "Download pre-configured Apple mobileconfig profiles for common use cases. Ready-to-use templates for Wi-Fi, VPN, DNS, and security settings. No configuration required."
  const DocsTitle: string := "Documentation - " + SiteName
  const DocsDescription: string := "Complete documentation for Apple mobileconfig configuration profiles. API reference, payload types, supported settings, and implementation examples for iOS and macOS devices."

  /** The four pages of the site. */
  datatype Page = Home | BuilderPage | PresetsPage | DocsPage

  /** One entry of PAGE_CONFIG. */
  datatype PageConfig = PageConfig(title: string, description: string, keywords: seq<string>, path: string)

  const BuilderTitle: string := "Profile Builder - " + SiteName
  const BuilderKeywords: seq<string> := ["mobileconfig builder", "Apple profile creator", "iOS configuration",
    "macOS settings", "Wi-Fi profile", "VPN profile", "DNS settings"]
  const PresetsTitle: string := "Configuration Presets - " + SiteName
  const PresetsKeywords: seq<string> := ["mobileconfig templates", "Apple profile presets", "ready-made profiles",
    "configuration templates", "Wi-Fi templates", "VPN templates"]
  const DocsKeywords: seq<string> := ["mobileconfig documentation", "Apple profile API", "payload types",
    "configuration reference", "iOS settings", "macOS configuration"]

  /** PAGE_CONFIG: title, description, keywords and path of each page. */
  function PageConfigOf(page: Page): PageConfig
  {
    match page
    case Home => PageConfig(SiteName, SiteDescription, SiteKeywords, "/")
    case BuilderPage => PageConfig(BuilderTitle, BuilderDescription, BuilderKeywords, "/builder")
    case PresetsPage => PageConfig(PresetsTitle, PresetsDescription, PresetsKeywords, "/presets")
    case DocsPage => PageConfig(DocsTitle, DocsDescription, DocsKeywords, "/docs")
  }

  // ---------------------------------------------------------------------
  // Meta tags (generateMetaTags)
  // ---------------------------------------------------------------------

  /** The argument of `generateMetaTags`; `None` is a property left undefined. */
  datatype MetaTagsOptions = MetaTagsOptions(
    title: string,
    description: string,
    keywords: Option<seq<string>>,
    path: string,
    noIndex: Option<bool>)

  /** `{ title }`, `{ name, content }` or `{ property, content }`. */
  datatype MetaTag =
    | TitleTag(title: string)
    | NameTag(name: string, content: string)
    | PropertyTag(property: string, content: string)

  /** Which tag a meta tag is, without its content. */
  datatype TagKind = TitleKind | NameKind(name: string) | PropertyKind(property: string)

  /** The kind of a meta tag. */
  function KindOf(t: MetaTag): TagKind
  {
    match t
    case TitleTag(_) => TitleKind
    case NameTag(n, _) => NameKind(n)
    case PropertyTag(p, _) => PropertyKind(p)
  }

  /** The kinds of a list of meta tags, in order. */
  function Kinds(tags: seq<MetaTag>): seq<TagKind>
  {
    seq(|tags|, i requires 0 <= i < |tags| => KindOf(tags[i]))
  }

  /** The sixteen tags every page gets, in their order. */
  const MetaTagOrder: seq<TagKind> := [
    TitleKind, NameKind("title"), NameKind("description"), NameKind("keywords"), NameKind("author"),
    NameKind("robots"),
    PropertyKind("og:title"), PropertyKind("og:description"), PropertyKind("og:url"), PropertyKind("og:type"),
    PropertyKind("og:site_name"), PropertyKind("og:locale"),
    NameKind("twitter:card"), NameKind("twitter:title"), NameKind("twitter:description"),
    NameKind("application-name")]

  /** The keywords of the options, `[]` when left out (the parameter default). */
  function PageKeywords(o: MetaTagsOptions): seq<string>
  {
    o.keywords.GetOr([])
  }

  /** `generateMetaTags(options)`. */
  function GenerateMetaTags(o: MetaTagsOptions): seq<MetaTag>
  {
    var fullUrl := SiteUrl + o.path;
    var keywordString := Join(SiteKeywords + PageKeywords(o), ", ");
    var noIndex := o.noIndex.GetOr(false);
    [ TitleTag(o.title),
      NameTag("title", SiteName),
      NameTag("description", o.description),
      NameTag("keywords", keywordString),
      NameTag("author", SiteAuthor),
      NameTag("robots", if noIndex then "noindex, nofollow" else "index, follow"),
      PropertyTag("og:title", o.title),
      PropertyTag("og:description", o.description),
      PropertyTag("og:url", fullUrl),
      PropertyTag("og:type", "website"),
      PropertyTag("og:site_name", SiteName),
      PropertyTag("og:locale", "en_US"),
      NameTag("twitter:card", "summary"),
      NameTag("twitter:title", o.title),
      NameTag("twitter:description", o.description),
      NameTag("application-name", SiteName) ]
  }

  /** Every page gets exactly sixteen tags, always of the same kinds in the same order. */
  lemma MetaTagsShape(o: MetaTagsOptions)
    ensures |GenerateMetaTags(o)| == 16
    ensures Kinds(GenerateMetaTags(o)) == MetaTagOrder
  {
  }

  /**
   * The keywords tag holds the site keywords and then the page keywords,
   * joined by ", "; with no page keywords it is the site keywords alone.
   */
  lemma KeywordsContent(o: MetaTagsOptions)
    ensures GenerateMetaTags(o)[3] == NameTag("keywords", Join(SiteKeywords + PageKeywords(o), ", "))
    ensures PageKeywords(o) == [] ==> GenerateMetaTags(o)[3].content == Join(SiteKeywords, ", ")
    ensures PageKeywords(o) != [] ==>
      GenerateMetaTags(o)[3].content == Join(SiteKeywords, ", ") + ", " + Join(PageKeywords(o), ", ")
  {
    var content := GenerateMetaTags(o)[3].content;
    assert content == Join(SiteKeywords + PageKeywords(o), ", ");
    if PageKeywords(o) == [] {
      assert SiteKeywords + PageKeywords(o) == SiteKeywords;
    } else {
      JoinAppend(SiteKeywords, PageKeywords(o), ", ");
    }
  }

  /** The robots tag forbids indexing exactly when `noIndex` is true; left out, it counts as false. */
  lemma RobotsContent(o: MetaTagsOptions)
    ensures GenerateMetaTags(o)[5].name == "robots"
    ensures GenerateMetaTags(o)[5].content == "noindex, nofollow" <==> o.noIndex == Some(true)
    ensures GenerateMetaTags(o)[5].content == "index, follow" <==> o.noIndex != Some(true)
  {
  }

  /**
   * `og:url` is the site URL followed by the path, and the title and
   * description are repeated unchanged in the page title, Open Graph and
   * Twitter tags.
   */
  lemma PageFieldsRepeated(o: MetaTagsOptions)
    ensures var tags := GenerateMetaTags(o);
      && tags[8] == PropertyTag("og:url", SiteUrl + o.path)
      && tags[0] == TitleTag(o.title) && tags[6].content == o.title && tags[13].content == o.title
      && tags[2].content == o.description && tags[7].content == o.description && tags[14].content == o.description
  {
  }

  // ---------------------------------------------------------------------
  // Structured data (generateStructuredData)
  // ---------------------------------------------------------------------

  /** The JSON values the structured data holds. */
  datatype Json =
    | JString(text: string)
    | JNumber(number: int)
    | JArray(items: seq<Json>)
    | JObject(fields: seq<Field>)

  /** One property of a JSON object. */
  datatype Field = Field(key: string, value: Json)

  /** The keys of an object, in order. */
  function KeysOf(fields: seq<Field>): seq<string>
  {
    seq(|fields|, i requires 0 <= i < |fields| => fields[i].key)
  }

  /** `obj[key]`: the value of the first property named `key`. */
  function Get(fields: seq<Field>, key: string): Option<Json>
  {
    if |fields| == 0 then None
    else if fields[0].key == key then Some(fields[0].value)
    else Get(fields[1..], key)
  }

  /** `{ ...obj, [key]: value }`: replace the value of `key` where it stands, or add it at the end. */
  function Assign(fields: seq<Field>, key: string, value: Json): seq<Field>
  {
    if |fields| == 0 then [Field(key, value)]
    else if fields[0].key == key then [Field(key, value)] + fields[1..]
    else [fields[0]] + Assign(fields[1..], key, value)
  }

  /** After an assignment the key holds the new value and every other key keeps its value. */
  lemma {:induction false} AssignGet(fields: seq<Field>, key: string, value: Json, other: string)
    ensures Get(Assign(fields, key, value), key) == Some(value)
    ensures other != key ==> Get(Assign(fields, key, value), other) == Get(fields, other)
  {
    if |fields| > 0 && fields[0].key != key {
      AssignGet(fields[1..], key, value, other);
    }
  }

  /** The keys of a field followed by more fields. */
  lemma KeysOfCons(f: Field, rest: seq<Field>)
    ensures KeysOf([f] + rest) == [f.key] + KeysOf(rest)
  {
    assert forall i :: 0 <= i < |rest| ==> ([f] + rest)[i + 1] == rest[i];
  }

  /** An assignment keeps the order of the keys, adding the key at the end only when it is new. */
  lemma {:induction false} AssignKeys(fields: seq<Field>, key: string, value: Json)
    ensures KeysOf(Assign(fields, key, value)) == if key in KeysOf(fields) then KeysOf(fields) else KeysOf(fields) + [key]
  {
    if |fields| == 0 {
      KeysOfCons(Field(key, value), []);
    } else {
      var rest := fields[1..];
      assert fields == [fields[0]] + rest;
      KeysOfCons(fields[0], rest);
      if fields[0].key == key {
        KeysOfCons(Field(key, value), rest);
      } else {
        AssignKeys(rest, key, value);
        KeysOfCons(fields[0], Assign(rest, key, value));
        assert key in KeysOf(fields) <==> key in KeysOf(rest);
        assert [fields[0].key] + (KeysOf(rest) + [key]) == KeysOf(fields) + [key];
      }
    }
  }

  /** The `creator` of the base record: the site as an organization. */
  const Creator: Json := JObject([Field("@type", JString("Organization")), Field("name", JString(SiteName))])

  /** The `featureList` of the base record. */
  const FeatureList: Json := JArray([
    JString("Wi-Fi configuration profiles"), JString("VPN configuration profiles"),
    JString("DNS configuration profiles"), JString("Web Content Filter profiles"),
    JString("Email configuration profiles"), JString("Interactive payload editor"),
    JString("Pre-configured templates")])

  /** `baseData`: the schema.org record of the site as a whole. */
  const BaseData: seq<Field> := [
    Field("@context", JString("https://schema.org")),
    Field("@type", JString("WebApplication")),
    Field("name", JString(SiteName)),
    Field("description", JString(SiteDescription)),
    Field("url", JString(SiteUrl)),
    Field("applicationCategory", JString("DeveloperApplication")),
    Field("operatingSystem", JString("Web Browser")),
    Field("creator", Creator),
    Field("featureList", FeatureList)]

  /** The keys of the base record, in order. */
  const BaseKeys: seq<string> := ["@context", "@type", "name", "description", "url", "applicationCategory",
    "operatingSystem", "creator", "featureList"]

  /** The keys of the base record are the nine listed, in that order. */
  lemma BaseDataKeys()
    ensures KeysOf(BaseData) == BaseKeys
  {
  }

  /**
   * The base record has the `@type`, `name` and `description` the page
   * spreads replace, and none of the keys they add.
   */
  lemma BaseKeysSpreadFacts()
    ensures "@type" in BaseKeys && "name" in BaseKeys && "description" in BaseKeys
    ensures "applicationSubCategory" !in BaseKeys && "numberOfItems" !in BaseKeys && "genre" !in BaseKeys
  {
    assert BaseKeys[1] == "@type" && BaseKeys[2] == "name" && BaseKeys[3] == "description";
  }

  /** The builder page's spread: `{ ...base, '@type': 'WebApplication', applicationSubCategory, description }`. */
  function BuilderData(base: seq<Field>): seq<Field>
  {
    var r := Assign(base, "@type", JString("WebApplication"));
    var r := Assign(r, "applicationSubCategory", JString("Configuration Tool"));
    Assign(r, "description", JString(PageConfigOf(BuilderPage).description))
  }

  /** The presets page's spread: `{ ...base, '@type': 'ItemList', name, description, numberOfItems: 5 }`. */
  function PresetsData(base: seq<Field>): seq<Field>
  {
    var r := Assign(base, "@type", JString("ItemList"));
    var r := Assign(r, "name", JString("Apple Configuration Profile Templates"));
    var r := Assign(r, "description", JString(PageConfigOf(PresetsPage).description));
    Assign(r, "numberOfItems", JNumber(5))
  }

  /** The docs page's spread: `{ ...base, '@type': 'TechArticle', name, description, genre }`. */
  function DocsData(base: seq<Field>): seq<Field>
  {
    var r := Assign(base, "@type", JString("TechArticle"));
    var r := Assign(r, "name", JString(PageConfigOf(DocsPage).title));
    var r := Assign(r, "description", JString(PageConfigOf(DocsPage).description));
    Assign(r, "genre", JString("Documentation"))
  }

  /** `generateStructuredData(pageType)`; `None` is the argument left out, which defaults to the home page. */
  function GenerateStructuredData(pageType: Option<Page>): seq<Field>
  {
    match pageType.GetOr(Home)
    case BuilderPage => BuilderData(BaseData)
    case PresetsPage => PresetsData(BaseData)
    case DocsPage => DocsData(BaseData)
    case Home => BaseData
  }

  /** With no argument, or for the home page, the record is the base record unchanged. */
  lemma StructuredDataHome()
    ensures GenerateStructuredData(None) == BaseData
    ensures GenerateStructuredData(Some(Home)) == BaseData
  {
  }

  /**
   * The builder spread keeps `@type` a `WebApplication`, sets the builder's
   * description and adds `applicationSubCategory` at the end; every other
   * property keeps its value and position.
   */
  lemma BuilderOverrides(base: seq<Field>, k: string)
    requires "@type" in KeysOf(base) && "description" in KeysOf(base)
    requires "applicationSubCategory" !in KeysOf(base)
    ensures var r := BuilderData(base);
      && Get(r, "@type") == Some(JString("WebApplication"))
      && Get(r, "applicationSubCategory") == Some(JString("Configuration Tool"))
      && Get(r, "description") == Some(JString(PageConfigOf(BuilderPage).description))
      && (k !in ["@type", "applicationSubCategory", "description"] ==> Get(r, k) == Get(base, k))
      && KeysOf(r) == KeysOf(base) + ["applicationSubCategory"]
  {
    var r1 := Assign(base, "@type", JString("WebApplication"));
    var r2 := Assign(r1, "applicationSubCategory", JString("Configuration Tool"));
    var d := JString(PageConfigOf(BuilderPage).description);
    AssignGet(base, "@type", JString("WebApplication"), k);
    AssignGet(r1, "applicationSubCategory", JString("Configuration Tool"), k);
    AssignGet(r2, "description", d, k);
    AssignGet(r2, "description", d, "@type");
    AssignGet(r2, "description", d, "applicationSubCategory");
    AssignGet(r1, "applicationSubCategory", JString("Configuration Tool"), "@type");
    AssignKeys(base, "@type", JString("WebApplication"));
    AssignKeys(r1, "applicationSubCategory", JString("Configuration Tool"));
    AssignKeys(r2, "description", d);
  }

  /**
   * The presets spread makes the record an `ItemList` of 5 items with its
   * own name and description, and adds `numberOfItems` at the end; every
   * other property keeps its value and position.
   */
  lemma PresetsOverrides(base: seq<Field>, k: string)
    requires "@type" in KeysOf(base) && "name" in KeysOf(base) && "description" in KeysOf(base)
    requires "numberOfItems" !in KeysOf(base)
    ensures var r := PresetsData(base);
      && Get(r, "@type") == Some(JString("ItemList"))
      && Get(r, "name") == Some(JString("Apple Configuration Profile Templates"))
      && Get(r, "description") == Some(JString(PageConfigOf(PresetsPage).description))
      && Get(r, "numberOfItems") == Some(JNumber(5))
      && (k !in ["@type", "name", "description", "numberOfItems"] ==> Get(r, k) == Get(base, k))
      && KeysOf(r) == KeysOf(base) + ["numberOfItems"]
  {
    var n := JString("Apple Configuration Profile Templates");
    var d := JString(PageConfigOf(PresetsPage).description);
    var r1 := Assign(base, "@type", JString("ItemList"));
    var r2 := Assign(r1, "name", n);
    var r3 := Assign(r2, "description", d);
    AssignGet(base, "@type", JString("ItemList"), k);
    AssignGet(r1, "name", n, k);
    AssignGet(r2, "description", d, k);
    AssignGet(r3, "numberOfItems", JNumber(5), k);
    AssignGet(r3, "numberOfItems", JNumber(5), "@type");
    AssignGet(r3, "numberOfItems", JNumber(5), "name");
    AssignGet(r3, "numberOfItems", JNumber(5), "description");
    AssignGet(r2, "description", d, "@type");
    AssignGet(r2, "description", d, "name");
    AssignGet(r1, "name", n, "@type");
    AssignKeys(base, "@type", JString("ItemList"));
    AssignKeys(r1, "name", n);
    AssignKeys(r2, "description", d);
    AssignKeys(r3, "numberOfItems", JNumber(5));
  }

  /**
   * The docs spread makes the record a `TechArticle` in the genre
   * `Documentation`, named by the docs title, and adds `genre` at the end;
   * every other property keeps its value and position.
   */
  lemma DocsOverrides(base: seq<Field>, k: string)
    requires "@type" in KeysOf(base) && "name" in KeysOf(base) && "description" in KeysOf(base)
    requires "genre" !in KeysOf(base)
    ensures var r := DocsData(base);
      && Get(r, "@type") == Some(JString("TechArticle"))
      && Get(r, "name") == Some(JString(PageConfigOf(DocsPage).title))
      && Get(r, "description") == Some(JString(PageConfigOf(DocsPage).description))
      && Get(r, "genre") == Some(JString("Documentation"))
      && (k !in ["@type", "name", "description", "genre"] ==> Get(r, k) == Get(base, k))
      && KeysOf(r) == KeysOf(base) + ["genre"]
  {
    var n := JString(PageConfigOf(DocsPage).title);
    var d := JString(PageConfigOf(DocsPage).description);
    var g := JString("Documentation");
    var r1 := Assign(base, "@type", JString("TechArticle"));
    var r2 := Assign(r1, "name", n);
    var r3 := Assign(r2, "description", d);
    AssignGet(base, "@type", JString("TechArticle"), k);
    AssignGet(r1, "name", n, k);
    AssignGet(r2, "description", d, k);
    AssignGet(r3, "genre", g, k);
    AssignGet(r3, "genre", g, "@type");
    AssignGet(r3, "genre", g, "name");
    AssignGet(r3, "genre", g, "description");
    AssignGet(r2, "description", d, "@type");
    AssignGet(r2, "description", d, "name");
    AssignGet(r1, "name", n, "@type");
    AssignKeys(base, "@type", JString("TechArticle"));
    AssignKeys(r1, "name", n);
    AssignKeys(r2, "description", d);
    AssignKeys(r3, "genre", g);
  }

  /** The page texts the spreads take from PAGE_CONFIG. */
  lemma PageConfigTexts()
    ensures PageConfigOf(BuilderPage).description == BuilderDescription
    ensures PageConfigOf(PresetsPage).description == PresetsDescription
    ensures PageConfigOf(DocsPage).title == DocsTitle
    ensures PageConfigOf(DocsPage).description == DocsDescription
  {
  }

  /** The builder page's record: the builder spread of the base record. */
  lemma StructuredDataBuilder(k: string)
    ensures var r := GenerateStructuredData(Some(BuilderPage));
      && Get(r, "@type") == Some(JString("WebApplication"))
      && Get(r, "applicationSubCategory") == Some(JString("Configuration Tool"))
      && Get(r, "description") == Some(JString(PageConfigOf(BuilderPage).description))
      && (k !in ["@type", "applicationSubCategory", "description"] ==> Get(r, k) == Get(BaseData, k))
      && KeysOf(r) == BaseKeys + ["applicationSubCategory"]
  {
    BaseDataKeys();
    BaseKeysSpreadFacts();
    BuilderOverrides(BaseData, k);
  }

  /** The presets page's record: an `ItemList` of 5 items, otherwise the base record. */
  lemma StructuredDataPresets(k: string)
    ensures var r := GenerateStructuredData(Some(PresetsPage));
      && Get(r, "@type") == Some(JString("ItemList"))
      && Get(r, "name") == Some(JString("Apple Configuration Profile Templates"))
      && Get(r, "description") == Some(JString(PageConfigOf(PresetsPage).description))
      && Get(r, "numberOfItems") == Some(JNumber(5))
      && (k !in ["@type", "name", "description", "numberOfItems"] ==> Get(r, k) == Get(BaseData, k))
      && KeysOf(r) == BaseKeys + ["numberOfItems"]
  {
    BaseDataKeys();
    BaseKeysSpreadFacts();
    PresetsOverrides(BaseData, k);
  }

  /** The docs page's record: a `TechArticle` in the genre `Documentation`, otherwise the base record. */
  lemma StructuredDataDocs(k: string)
    ensures var r := GenerateStructuredData(Some(DocsPage));
      && Get(r, "@type") == Some(JString("TechArticle"))
      && Get(r, "name") == Some(JString(PageConfigOf(DocsPage).title))
      && Get(r, "description") == Some(JString(PageConfigOf(DocsPage).description))
      && Get(r, "genre") == Some(JString("Documentation"))
      && (k !in ["@type", "name", "description", "genre"] ==> Get(r, k) == Get(BaseData, k))
      && KeysOf(r) == BaseKeys + ["genre"]
  {
    BaseDataKeys();
    BaseKeysSpreadFacts();
    DocsOverrides(BaseData, k);
  }
}
