/**
 * The shell around the tools: which collection and tool the page opens
 * on, the tool labels, the sidebar and home searches, the section
 * grouping, the theme, and the query string kept in step with what is
 * shown.
 */
module App {
  import opened Wrappers
  import opened Chars
  import opened Seqs
  import opened JsText
  import UrlParams

  /** The tools, with the string each one is called in a URL. */
  datatype ToolType =
    | Timestamp | Snowflake | IdLookup | Permissions | Invite | Markdown | ChannelDecorator
    | EmojiMaker | TextTransform | AssetCdn | ColorGuide | Embed | Webhook

  const AllTools: seq<ToolType> := [
    Timestamp, Snowflake, IdLookup, Permissions, Invite, Markdown, ChannelDecorator,
    EmojiMaker, TextTransform, AssetCdn, ColorGuide, Embed, Webhook
  ]

  function ToolValue(t: ToolType): string
  {
    match t
    case Timestamp => "timestamp"
    case Snowflake => "snowflake"
    case IdLookup => "id-lookup"
    case Permissions => "permissions"
    case Invite => "invite"
    case Markdown => "markdown"
    case ChannelDecorator => "channel-decorator"
    case EmojiMaker => "emoji-maker"
    case TextTransform => "text-transform"
    case AssetCdn => "asset-cdn"
    case ColorGuide => "color-guide"
    case Embed => "embed"
    case Webhook => "webhook"
  }

  /** `validTools.has(s)`: the tool whose URL value is `s`, if there is one. */
  function ParseTool(s: string): (r: Option<ToolType>)
    ensures r.Some? ==> ToolValue(r.value) == s
  {
    if s == "timestamp" then Some(Timestamp)
    else if s == "snowflake" then Some(Snowflake)
    else if s == "id-lookup" then Some(IdLookup)
    else if s == "permissions" then Some(Permissions)
    else if s == "invite" then Some(Invite)
    else if s == "markdown" then Some(Markdown)
    else if s == "channel-decorator" then Some(ChannelDecorator)
    else if s == "emoji-maker" then Some(EmojiMaker)
    else if s == "text-transform" then Some(TextTransform)
    else if s == "asset-cdn" then Some(AssetCdn)
    else if s == "color-guide" then Some(ColorGuide)
    else if s == "embed" then Some(Embed)
    else if s == "webhook" then Some(Webhook)
    else None
  }

  /** Every tool's URL value is recognised as that tool, so the set of valid values is exactly the tools' values. */
  lemma ParseToolValue(t: ToolType)
    ensures ParseTool(ToolValue(t)) == Some(t)
  {
  }

  /** `ParseTool` succeeds exactly on the tools' URL values. */
  lemma ParseToolIff(s: string, t: ToolType)
    ensures ParseTool(s) == Some(t) <==> ToolValue(t) == s
  {
    if ToolValue(t) == s {
      ParseToolValue(t);
    }
  }

  /** `toolLabel`: the label is defined for every tool. */
  function Label(t: ToolType): string
  {
    match t
    case Timestamp => "Timestamps"
    case Snowflake => "Snowflake Decoder"
    case IdLookup => "ID Lookup"
    case Permissions => "Permission Calc"
    case Invite => "Invite Generator"
    case Markdown => "Markdown Helper"
    case ChannelDecorator => "Channel Decorator"
    case EmojiMaker => "Emoji Maker"
    case TextTransform => "Text Transform"
    case AssetCdn => "Asset CDN Helper"
    case ColorGuide => "Color Guide"
    case Embed => "Embed Creator"
    case Webhook => "Webhook Tool"
  }

  /** No two tools share a label, and none is empty. */
  lemma LabelsDistinct(a: ToolType, b: ToolType)
    ensures Label(a) != []
    ensures a != b ==> Label(a) != Label(b)
  {
  }

  datatype Collection = Home | Discord | WhatsApp

  /**
   * `getInitialCollectionFromUrl`: the `suite` parameter when it names a
   * collection other than home; otherwise Discord when `tool` names a tool,
   * and home when it does not.
   */
  function InitialCollection(ps: seq<UrlParams.Param>): (r: Collection)
  {
    var suite := UrlParams.Get(ps, "suite");
    if suite == Some("discord") then Discord
    else if suite == Some("whatsapp") then WhatsApp
    else
      var tool := UrlParams.Get(ps, "tool");
      if tool.Some? && tool.value != [] && ParseTool(tool.value).Some? then Discord else Home
  }

  /** The opening collection in terms of the two parameters, case by case. */
  lemma InitialCollectionCases(ps: seq<UrlParams.Param>)
    ensures UrlParams.Get(ps, "suite") == Some("discord") ==> InitialCollection(ps) == Discord
    ensures UrlParams.Get(ps, "suite") == Some("whatsapp") ==> InitialCollection(ps) == WhatsApp
    ensures InitialCollection(ps) == Home <==>
      UrlParams.Get(ps, "suite") != Some("discord") && UrlParams.Get(ps, "suite") != Some("whatsapp")
      && (UrlParams.Get(ps, "tool").None? || ParseTool(UrlParams.Get(ps, "tool").value).None?)
  {
  }

  /** `getInitialToolFromUrl`: the `tool` parameter when it names a tool, else Timestamp. */
  function InitialTool(ps: seq<UrlParams.Param>): (r: ToolType)
    ensures UrlParams.Get(ps, "tool").Some? && ParseTool(UrlParams.Get(ps, "tool").value).Some? ==>
      ToolValue(r) == UrlParams.Get(ps, "tool").value
    ensures UrlParams.Get(ps, "tool").None? || ParseTool(UrlParams.Get(ps, "tool").value).None? ==>
      r == Timestamp
  {
    var tool := UrlParams.Get(ps, "tool");
    if tool.Some? && tool.value != [] && ParseTool(tool.value).Some? then ParseTool(tool.value).value
    else Timestamp
  }

  datatype Theme = Dark | Light

  function ThemeValue(t: Theme): string
  {
    match t
    case Dark => "dark"
    case Light => "light"
  }

  /** `getInitialTheme`: light only when the stored value is exactly `light`. */
  function InitialTheme(stored: Option<string>): (r: Theme)
    ensures r == Light <==> stored == Some("light")
  {
    if stored == Some("light") then Light else Dark
  }

  /** The theme button: dark becomes light and light becomes dark. */
  function ToggleTheme(t: Theme): (r: Theme)
    ensures r != t
  {
    if t == Dark then Light else Dark
  }

  lemma ToggleTwice(t: Theme)
    ensures ToggleTheme(ToggleTheme(t)) == t
  {
  }

  /** The theme written to storage is the one read back on the next visit. */
  lemma ThemeStored(t: Theme)
    ensures InitialTheme(Some(ThemeValue(t))) == t
  {
  }

  datatype Section = Discovery | Creativity | Utilities

  function SectionValue(s: Section): string
  {
    match s
    case Discovery => "discovery"
    case Creativity => "creativity"
    case Utilities => "utilities"
  }

  /** Position in `sectionOrder`. */
  function Rank(s: Section): nat
  {
    match s
    case Discovery => 0
    case Creativity => 1
    case Utilities => 2
  }

  function SectionLabel(s: Section): string
  {
    match s
    case Discovery => "Discovery"
    case Creativity => "Creativity"
    case Utilities => "Utilities"
  }

  datatype ToolDef = ToolDef(key: ToolType, section: Section)

  /** The sidebar entries, in display order. */
  const Tools: seq<ToolDef> := [
    ToolDef(Snowflake, Discovery), ToolDef(IdLookup, Discovery),
    ToolDef(AssetCdn, Discovery), ToolDef(ColorGuide, Discovery),
    ToolDef(Markdown, Creativity), ToolDef(ChannelDecorator, Creativity),
    ToolDef(EmojiMaker, Creativity), ToolDef(TextTransform, Creativity), ToolDef(Embed, Creativity),
    ToolDef(Timestamp, Utilities), ToolDef(Permissions, Utilities),
    ToolDef(Invite, Utilities), ToolDef(Webhook, Utilities)
  ]

  /** Where a tool sits in the sidebar table: every tool has an entry. */
  function ToolIndex(t: ToolType): (i: nat)
    ensures i < |Tools| && Tools[i].key == t
  {
    match t
    case Snowflake => 0
    case IdLookup => 1
    case AssetCdn => 2
    case ColorGuide => 3
    case Markdown => 4
    case ChannelDecorator => 5
    case EmojiMaker => 6
    case TextTransform => 7
    case Embed => 8
    case Timestamp => 9
    case Permissions => 10
    case Invite => 11
    case Webhook => 12
  }

  /** The table lists each tool once. */
  lemma ToolsOnce()
    ensures |Tools| == |AllTools| == 13
    ensures forall i, j :: 0 <= i < j < |Tools| ==> Tools[i].key != Tools[j].key
  {
  }

  /** `search.trim().toLowerCase()`, the form both searches compare against. */
  function Normalize(search: string): string
  {
    LowerString(Trim(search))
  }

  predicate LabelMatches(q: string, d: ToolDef)
  {
    Contains(LowerString(Label(d.key)), q)
  }

  /**
   * `visibleTools`: every tool for an empty query, else the tools whose
   * lower-cased label contains the query, in table order.
   */
  function VisibleTools(search: string): (r: seq<ToolDef>)
    ensures Normalize(search) == [] ==> r == Tools
    ensures Normalize(search) != [] ==> r == Filter(Tools, d => LabelMatches(Normalize(search), d))
  {
    if Normalize(search) == [] then Tools else Filter(Tools, d => LabelMatches(Normalize(search), d))
  }

  /** A non-empty query shows exactly the tools whose labels contain it, in their table order. */
  lemma VisibleToolsMatch(search: string, d: ToolDef)
    requires Normalize(search) != []
    ensures d in VisibleTools(search) <==> d in Tools && LabelMatches(Normalize(search), d)
    ensures IsSubsequence(VisibleTools(search), Tools)
  {
    FilterMember(Tools, d => LabelMatches(Normalize(search), d), d);
  }

  /** Typing the start of a tool's label keeps that tool in the sidebar. */
  lemma VisibleFindsTool(search: string, t: ToolType)
    requires Normalize(search) <= LowerString(Label(t))
    ensures Tools[ToolIndex(t)] in VisibleTools(search)
  {
    var d := Tools[ToolIndex(t)];
    var q := Normalize(search);
    if q != [] {
      assert LabelMatches(q, d);
      FilterMember(Tools, e => LabelMatches(q, e), d);
    }
  }

  datatype SearchableTool = SearchableTool(key: ToolType, name: string, section: Section)

  /** `searchableTools`: each table entry with its label. */
  function Searchables(ds: seq<ToolDef>): (r: seq<SearchableTool>)
    ensures |r| == |ds|
    ensures forall i :: 0 <= i < |ds| ==> r[i] == SearchableTool(ds[i].key, Label(ds[i].key), ds[i].section)
  {
    if ds == [] then [] else [SearchableTool(ds[0].key, Label(ds[0].key), ds[0].section)] + Searchables(ds[1..])
  }

  const Searchable: seq<SearchableTool> := Searchables(Tools)

  predicate HomeMatches(q: string, st: SearchableTool)
  {
    Contains(LowerString(st.name), q) || Contains(LowerString(SectionValue(st.section)), q)
  }

  /**
   * `homeSearchResults`: nothing for an empty query, else the tools whose
   * label or section name contains the query.
   */
  function HomeSearchResults(homeSearch: string): (r: seq<SearchableTool>)
    ensures Normalize(homeSearch) == [] ==> r == []
  {
    if Normalize(homeSearch) == [] then [] else Filter(Searchable, st => HomeMatches(Normalize(homeSearch), st))
  }

  /** A result is a searchable tool matching by label or section, and every such tool is a result. */
  lemma HomeSearchMatch(homeSearch: string, st: SearchableTool)
    requires Normalize(homeSearch) != []
    ensures st in HomeSearchResults(homeSearch) <==> st in Searchable && HomeMatches(Normalize(homeSearch), st)
  {
    FilterMember(Searchable, e => HomeMatches(Normalize(homeSearch), e), st);
  }

  /** Whatever the sidebar search finds, the home search finds too: it also matches on labels. */
  lemma SidebarHitIsHomeHit(search: string, k: nat)
    requires Normalize(search) != [] && k < |Tools|
    requires Tools[k] in VisibleTools(search)
    ensures Searchable[k] in HomeSearchResults(search)
  {
    var q := Normalize(search);
    VisibleToolsMatch(search, Tools[k]);
    assert HomeMatches(q, Searchable[k]);
    HomeSearchMatch(search, Searchable[k]);
  }

  datatype Group = Group(section: Section, name: string, items: seq<ToolDef>)

  predicate InSection(s: Section, d: ToolDef) { d.section == s }

  /** One `sectionOrder` entry mapped to its group of visible tools. */
  function GroupOf(vis: seq<ToolDef>, s: Section): (g: Group)
  {
    Group(s, SectionLabel(s), Filter(vis, d => InSection(s, d)))
  }

  /** `sectionOrder.map(...)`: a group per section, discovery, creativity, utilities. */
  function SectionGroups(vis: seq<ToolDef>): (r: seq<Group>)
    ensures |r| == 3 && forall i :: 0 <= i < 3 ==> r[i] == GroupOf(vis, r[i].section) && Rank(r[i].section) == i
  {
    [GroupOf(vis, Discovery), GroupOf(vis, Creativity), GroupOf(vis, Utilities)]
  }

  predicate NonEmptyGroup(g: Group) { |g.items| > 0 }

  /** `groupedTools` over a list of visible tools: the section groups with the empty ones dropped. */
  function Groups(vis: seq<ToolDef>): (r: seq<Group>)
  {
    Filter(SectionGroups(vis), NonEmptyGroup)
  }

  function GroupRank(g: Group): int { Rank(g.section) }

  /** Each group is non-empty and holds exactly its section's visible tools, in their order. */
  lemma GroupsItems(vis: seq<ToolDef>)
    ensures forall i :: 0 <= i < |Groups(vis)| ==>
      Groups(vis)[i].items != [] && Groups(vis)[i] == GroupOf(vis, Groups(vis)[i].section)
  {
    var all := SectionGroups(vis);
    forall i | 0 <= i < |Groups(vis)|
      ensures Groups(vis)[i].items != [] && Groups(vis)[i] == GroupOf(vis, Groups(vis)[i].section)
    {
      var g := Groups(vis)[i];
      assert g in all;
    }
  }

  /** Groups come in the order discovery, creativity, utilities. */
  lemma GroupsOrdered(vis: seq<ToolDef>)
    ensures forall i, j :: 0 <= i < j < |Groups(vis)| ==> Rank(Groups(vis)[i].section) < Rank(Groups(vis)[j].section)
  {
    var all := SectionGroups(vis);
    FilterKeepsOrder(all, NonEmptyGroup, GroupRank);
  }

  /** Every visible tool appears in the group of its section. */
  lemma GroupsCover(vis: seq<ToolDef>)
    ensures forall k :: 0 <= k < |vis| ==>
      exists i :: 0 <= i < |Groups(vis)| && Groups(vis)[i].section == vis[k].section && vis[k] in Groups(vis)[i].items
  {
    var all := SectionGroups(vis);
    var r := Groups(vis);
    forall k | 0 <= k < |vis|
      ensures exists i :: 0 <= i < |r| && r[i].section == vis[k].section && vis[k] in r[i].items
    {
      var d := vis[k];
      var g := all[Rank(d.section)];
      assert g.section == d.section;
      FilterMember(vis, e => InSection(d.section, e), d);
      assert d in g.items;
      FilterMember(all, NonEmptyGroup, g);
      var i :| 0 <= i < |r| && r[i] == g;
    }
  }

  /** The sidebar's groups for a search text. */
  function GroupedTools(search: string): seq<Group>
  {
    Groups(VisibleTools(search))
  }

  /** `params` after the sync effect for the shown collection and tool. */
  function SyncParams(ps: seq<UrlParams.Param>, c: Collection, tool: ToolType): seq<UrlParams.Param>
  {
    match c
    case Home => UrlParams.Delete(UrlParams.Delete(ps, "suite"), "tool")
    case Discord => UrlParams.Set(UrlParams.Set(ps, "suite", "discord"), "tool", ToolValue(tool))
    case WhatsApp => UrlParams.Delete(UrlParams.Set(ps, "suite", "whatsapp"), "tool")
  }

  /** Parameters other than `suite` and `tool` are left alone. */
  lemma SyncKeepsOthers(ps: seq<UrlParams.Param>, c: Collection, tool: ToolType, n: string)
    requires n != "suite" && n != "tool"
    ensures UrlParams.Named(SyncParams(ps, c, tool), n) == UrlParams.Named(ps, n)
  {
  }

  /** A pair list whose only `name` pair is `(name, v)` answers `get(name)` with `v`. */
  lemma GetSingle(ps: seq<UrlParams.Param>, name: string, v: string)
    requires UrlParams.Named(ps, name) == [(name, v)]
    ensures UrlParams.Get(ps, name) == Some(v)
  {
  }

  /** Reloading the synced URL opens the same collection, and on Discord the same tool. */
  lemma SyncRoundTrip(ps: seq<UrlParams.Param>, c: Collection, tool: ToolType)
    ensures InitialCollection(SyncParams(ps, c, tool)) == c
    ensures c == Discord ==> InitialTool(SyncParams(ps, c, tool)) == tool
  {
    match c
    case Home => SyncHome(ps, tool);
    case Discord => SyncDiscord(ps, tool);
    case WhatsApp => SyncWhatsApp(ps, tool);
  }

  lemma SyncHome(ps: seq<UrlParams.Param>, tool: ToolType)
    ensures UrlParams.Get(SyncParams(ps, Home, tool), "suite").None?
    ensures UrlParams.Get(SyncParams(ps, Home, tool), "tool").None?
    ensures InitialCollection(SyncParams(ps, Home, tool)) == Home
  {
    var r := SyncParams(ps, Home, tool);
    assert UrlParams.Named(r, "suite") == [];
    assert UrlParams.Named(r, "tool") == [];
  }

  lemma SyncDiscord(ps: seq<UrlParams.Param>, tool: ToolType)
    ensures UrlParams.Get(SyncParams(ps, Discord, tool), "suite") == Some("discord")
    ensures UrlParams.Get(SyncParams(ps, Discord, tool), "tool") == Some(ToolValue(tool))
    ensures InitialCollection(SyncParams(ps, Discord, tool)) == Discord
    ensures InitialTool(SyncParams(ps, Discord, tool)) == tool
  {
    var s := UrlParams.Set(ps, "suite", "discord");
    var r := UrlParams.Set(s, "tool", ToolValue(tool));
    assert UrlParams.Named(r, "suite") == UrlParams.Named(s, "suite");
    GetSingle(r, "suite", "discord");
    GetSingle(r, "tool", ToolValue(tool));
    ParseToolValue(tool);
  }

  lemma SyncWhatsApp(ps: seq<UrlParams.Param>, tool: ToolType)
    ensures UrlParams.Get(SyncParams(ps, WhatsApp, tool), "suite") == Some("whatsapp")
    ensures UrlParams.Get(SyncParams(ps, WhatsApp, tool), "tool").None?
    ensures InitialCollection(SyncParams(ps, WhatsApp, tool)) == WhatsApp
  {
    var s := UrlParams.Set(ps, "suite", "whatsapp");
    var r := UrlParams.Delete(s, "tool");
    assert UrlParams.Named(r, "suite") == UrlParams.Named(s, "suite");
    GetSingle(r, "suite", "whatsapp");
    assert UrlParams.Named(r, "tool") == [];
  }

  /** The page's state: what is shown, the two search boxes, the theme and the query string. */
  class Shell {
    var collection: Collection
    var tool: ToolType
    var search: string
    var homeSearch: string
    var theme: Theme
    var params: seq<UrlParams.Param>

    /** The first render: collection and tool from the URL, theme from storage. */
    constructor(ps: seq<UrlParams.Param>, stored: Option<string>)
      ensures collection == InitialCollection(ps) && tool == InitialTool(ps)
      ensures theme == InitialTheme(stored)
      ensures search == "" && homeSearch == "" && params == ps
    {
      collection := InitialCollection(ps);
      tool := InitialTool(ps);
      theme := InitialTheme(stored);
      search := "";
      homeSearch := "";
      params := ps;
    }

    /** The effect run after each change of collection or tool. */
    method SyncUrl()
      modifies this
      ensures params == SyncParams(old(params), collection, tool)
      ensures collection == old(collection) && tool == old(tool) && theme == old(theme)
      ensures search == old(search) && homeSearch == old(homeSearch)
    {
      params := SyncParams(params, collection, tool);
    }

    /** Switching collection from the home page, the header or the footer. */
    method OpenCollection(c: Collection)
      modifies this
      ensures collection == c
      ensures tool == old(tool) && theme == old(theme) && params == old(params)
      ensures search == old(search) && homeSearch == old(homeSearch)
    {
      collection := c;
    }

    /** Choosing a home search result: open Discord on that tool and clear the box. */
    method PickSearchResult(key: ToolType)
      modifies this
      ensures collection == Discord && tool == key && homeSearch == ""
      ensures theme == old(theme) && params == old(params) && search == old(search)
    {
      collection := Discord;
      tool := key;
      homeSearch := "";
    }

    /** Choosing a tool in the sidebar. */
    method PickSidebarTool(key: ToolType)
      modifies this
      ensures tool == key
      ensures collection == old(collection) && theme == old(theme) && params == old(params)
      ensures search == old(search) && homeSearch == old(homeSearch)
    {
      tool := key;
    }

    method SetSearch(s: string)
      modifies this
      ensures search == s
      ensures collection == old(collection) && tool == old(tool) && theme == old(theme)
      ensures params == old(params) && homeSearch == old(homeSearch)
    {
      search := s;
    }

    method SetHomeSearch(s: string)
      modifies this
      ensures homeSearch == s
      ensures collection == old(collection) && tool == old(tool) && theme == old(theme)
      ensures params == old(params) && search == old(search)
    {
      homeSearch := s;
    }

    method FlipTheme()
      modifies this
      ensures theme == ToggleTheme(old(theme))
      ensures collection == old(collection) && tool == old(tool) && params == old(params)
      ensures search == old(search) && homeSearch == old(homeSearch)
    {
      theme := ToggleTheme(theme);
    }
  }
}
