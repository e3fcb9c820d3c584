/**
 * The asset CDN helper: builds Discord CDN links for avatars, server icons
 * and banners from an ID and an asset hash, takes the hash out of pasted
 * JSON, and asks once, on its own, for a hash to be looked up.
 */
module AssetHelperTool {
  import opened Wrappers
  import opened Decimal
  import opened Bits
  import opened JsonValues
  import SnowflakeTool
  import UrlParams

  datatype AssetType = Avatar | Icon | Banner

  /** The type's own name, which is also the JSON key the hash is read from. */
  function TypeName(t: AssetType): string
  {
    match t
    case Avatar => "avatar"
    case Icon => "icon"
    case Banner => "banner"
  }

  /** The CDN directory for the type. */
  function Folder(t: AssetType): string
  {
    match t
    case Avatar => "avatars"
    case Icon => "icons"
    case Banner => "banners"
  }

  const CdnBase: string := "https://cdn.discordapp.com"

  /** The initial type: the `type` query parameter when it names a type, else avatar. */
  function InitialType(params: seq<UrlParams.Param>): (t: AssetType)
    ensures UrlParams.Get(params, "type") == Some(TypeName(t))
         || (t == Avatar && forall u :: UrlParams.Get(params, "type") != Some(TypeName(u)))
  {
    match UrlParams.Get(params, "type")
    case Some(s) =>
      if s == "avatar" then Avatar
      else if s == "icon" then Icon
      else if s == "banner" then Banner
      else Avatar
    case None => Avatar
  }

  /** The initial ID: the `id` query parameter, digits only. */
  function InitialId(params: seq<UrlParams.Param>): (id: string)
    ensures AllDigits(id)
    ensures UrlParams.Get(params, "id").None? ==> id == []
    ensures UrlParams.Get(params, "id").Some? ==> id == StripNonDigits(UrlParams.Get(params, "id").value)
  {
    StripNonDigits(UrlParams.Get(params, "id").GetOr(""))
  }

  /** `getUrl`: empty without an ID or a hash, otherwise the CDN link for the type. */
  function GetUrl(t: AssetType, targetId: string, hash: string, size: string): (r: string)
    ensures r == [] <==> targetId == [] || hash == []
    ensures r != [] ==> r == CdnBase + "/" + Folder(t) + "/" + targetId + "/" + hash + ".png?size=" + size
  {
    if targetId == [] || hash == [] then ""
    else
      match t
      case Avatar => CdnBase + "/avatars/" + targetId + "/" + hash + ".png?size=" + size
      case Icon => CdnBase + "/icons/" + targetId + "/" + hash + ".png?size=" + size
      case Banner => CdnBase + "/banners/" + targetId + "/" + hash + ".png?size=" + size
  }

  /** The directory right after the host tells the three types apart. */
  lemma GetUrlTellsTypes(t1: AssetType, t2: AssetType, targetId: string, hash: string, size: string)
    requires targetId != [] && hash != [] && t1 != t2
    ensures GetUrl(t1, targetId, hash, size) != GetUrl(t2, targetId, hash, size)
  {
    var n := |CdnBase| + 1;
    var u1, u2 := GetUrl(t1, targetId, hash, size), GetUrl(t2, targetId, hash, size);
    assert u1[n] == Folder(t1)[0];
    assert u2[n] == Folder(t2)[0];
  }

  /** `https://unavatar.io/discord/<id>`, or empty without an ID. */
  function AutoAvatarUrl(targetId: string): string
  {
    if targetId == [] then "" else "https://unavatar.io/discord/" + targetId
  }

  /**
   * `defaultAvatarIndex`: `(id >> 22) % 6`, or 0 without an ID. It is the
   * ID's time part (its Snowflake timestamp since the epoch) modulo 6.
   */
  function DefaultAvatarIndex(targetId: string): (r: nat)
    requires AllDigits(targetId)
    ensures r < 6
    ensures targetId == [] ==> r == 0
    ensures targetId != [] ==>
      r == (SnowflakeTool.Decode(targetId).value.timestampMs - SnowflakeTool.DiscordEpoch) % 6
  {
    if targetId == [] then 0
    else
      SnowflakeTool.MaskLayout();
      ShiftRight(Value(targetId), 22) % 6
  }

  function DefaultAvatarUrl(targetId: string): string
    requires AllDigits(targetId)
  {
    "https://cdn.discordapp.com/embed/avatars/" + ToDecimal(DefaultAvatarIndex(targetId)) + ".png"
  }

  /** `downloadUrl`: the CDN link, else the avatar fallback, else nothing. */
  function DownloadUrl(t: AssetType, targetId: string, hash: string, size: string): (r: string)
    ensures GetUrl(t, targetId, hash, size) != [] ==> r == GetUrl(t, targetId, hash, size)
    ensures GetUrl(t, targetId, hash, size) == [] && t == Avatar && targetId != [] ==> r == AutoAvatarUrl(targetId)
  {
    var url := GetUrl(t, targetId, hash, size);
    if url != [] then url
    else if t == Avatar && targetId != [] then AutoAvatarUrl(targetId)
    else ""
  }

  /** There is something to download exactly when there is an ID and either a hash or the avatar type. */
  lemma DownloadUrlEmptyIff(t: AssetType, targetId: string, hash: string, size: string)
    ensures DownloadUrl(t, targetId, hash, size) == [] <==> targetId == [] || (hash == [] && t != Avatar)
  {
  }

  /** The auto-resolve effect's guard, apart from the once-only flag. */
  predicate WantsAutoResolve(t: AssetType, targetId: string, hash: string)
  {
    targetId != [] && hash == [] && (t == Avatar || t == Banner) && |targetId| >= 17
  }

  /** What `extractHashFromJson` does to the hash and the error text. */
  datatype Extraction = NewHash(hash: string) | ExtractError(message: string)

  /**
   * `parsed` is what `JSON.parse` gave, `None` when it threw. Reading a key
   * of `null` throws as well, and both report invalid JSON.
   */
  function Extract(t: AssetType, parsed: Option<Json>): (r: Extraction)
    ensures r.NewHash? <==>
      (parsed.Some? && StringProp(parsed.value, TypeName(t)).Some? && StringProp(parsed.value, TypeName(t)).value != [])
    ensures r.NewHash? ==> Prop(parsed.value, TypeName(t)) == Some(JString(r.hash)) && r.hash != []
    ensures r.ExtractError? ==>
      r.message == (if parsed.None? || parsed.value.JNull? then "Invalid JSON."
                    else "Could not find \"" + TypeName(t) + "\" in the JSON.")
  {
    if parsed.None? || parsed.value.JNull? then ExtractError("Invalid JSON.")
    else
      match StringProp(parsed.value, TypeName(t))
      case Some(h) =>
        if h != [] then NewHash(h) else ExtractError("Could not find \"" + TypeName(t) + "\" in the JSON.")
      case None => ExtractError("Could not find \"" + TypeName(t) + "\" in the JSON.")
  }

  /**
   * The one-time clean-up of the address bar: when `id` or `type` is there,
   * `id`, `type` and `assetHash` go and everything else stays.
   */
  function CleanedParams(ps: seq<UrlParams.Param>): (r: Option<seq<UrlParams.Param>>)
    ensures r.None? <==> !UrlParams.Has(ps, "id") && !UrlParams.Has(ps, "type")
    ensures r.Some? ==>
      && !UrlParams.Has(r.value, "id") && !UrlParams.Has(r.value, "type") && !UrlParams.Has(r.value, "assetHash")
      && forall n :: n != "id" && n != "type" && n != "assetHash" ==> UrlParams.Named(r.value, n) == UrlParams.Named(ps, n)
  {
    if !UrlParams.Has(ps, "id") && !UrlParams.Has(ps, "type") then None
    else
      var a := UrlParams.Delete(ps, "id");
      var b := UrlParams.Delete(a, "type");
      var c := UrlParams.Delete(b, "assetHash");
      Some(c)
  }

  /** The tool's state. The ID only ever holds digits. */
  class AssetHelper {
    var assetType: AssetType
    var targetId: string
    var assetHash: string
    var rawJson: string
    var jsonError: string
    var resolveError: string
    var size: string
    /** The `didAutoResolve` ref: set when the automatic lookup has been started. */
    var didAutoResolve: bool

    predicate Valid()
      reads this
    {
      AllDigits(targetId)
    }

    /** The state built from the query string the page was opened with. */
    constructor(params: seq<UrlParams.Param>)
      ensures Valid()
      ensures assetType == InitialType(params) && targetId == InitialId(params)
      ensures assetHash == "" && rawJson == "" && jsonError == "" && resolveError == ""
      ensures size == "1024" && !didAutoResolve
    {
      assetType := InitialType(params);
      targetId := InitialId(params);
      assetHash := "";
      rawJson := "";
      jsonError := "";
      resolveError := "";
      size := "1024";
      didAutoResolve := false;
    }

    function Url(): string
      reads this
    {
      GetUrl(assetType, targetId, assetHash, size)
    }

    /** `copy`: nothing is copied without a link. */
    function CopyText(): (r: Option<string>)
      reads this
      ensures r.None? <==> Url() == []
      ensures r.Some? ==> r.value == Url()
    {
      if Url() == [] then None else Some(Url())
    }

    method SetType(t: AssetType)
      modifies this
      ensures assetType == t
      ensures targetId == old(targetId) && assetHash == old(assetHash) && didAutoResolve == old(didAutoResolve)
      ensures rawJson == old(rawJson) && jsonError == old(jsonError) && resolveError == old(resolveError)
      ensures size == old(size)
    {
      assetType := t;
    }

    /** The ID input keeps only digits. */
    method SetTargetId(raw: string)
      modifies this
      ensures Valid() && targetId == StripNonDigits(raw)
      ensures assetType == old(assetType) && assetHash == old(assetHash) && didAutoResolve == old(didAutoResolve)
      ensures rawJson == old(rawJson) && jsonError == old(jsonError) && resolveError == old(resolveError)
      ensures size == old(size)
    {
      targetId := StripNonDigits(raw);
    }

    /** The hash input, taken as typed. */
    method SetAssetHash(h: string)
      modifies this
      ensures assetHash == h
      ensures assetType == old(assetType) && targetId == old(targetId) && didAutoResolve == old(didAutoResolve)
      ensures rawJson == old(rawJson) && jsonError == old(jsonError) && resolveError == old(resolveError)
      ensures size == old(size)
    {
      assetHash := h;
    }

    /** The pasted JSON text, taken as typed; it is read only when the hash is extracted. */
    method SetRawJson(text: string)
      modifies this
      ensures rawJson == text
      ensures assetType == old(assetType) && targetId == old(targetId) && assetHash == old(assetHash)
      ensures didAutoResolve == old(didAutoResolve) && jsonError == old(jsonError) && resolveError == old(resolveError)
      ensures size == old(size)
    {
      rawJson := text;
    }

    /** The size selector. */
    method SetSize(s: string)
      modifies this
      ensures size == s
      ensures assetType == old(assetType) && targetId == old(targetId) && assetHash == old(assetHash)
      ensures didAutoResolve == old(didAutoResolve) && rawJson == old(rawJson)
      ensures jsonError == old(jsonError) && resolveError == old(resolveError)
    {
      size := s;
    }

    /**
     * The auto-resolve effect. `started` says whether it starts the lookup
     * (the lookup itself is a network call); it starts at most once until
     * `ClearAll` re-arms it. Starting the lookup clears the resolve error
     * before the request goes out.
     */
    method AutoResolve() returns (started: bool)
      modifies this
      ensures started <==> !old(didAutoResolve) && WantsAutoResolve(assetType, targetId, assetHash)
      ensures didAutoResolve == (old(didAutoResolve) || started)
      ensures assetType == old(assetType) && targetId == old(targetId) && assetHash == old(assetHash)
      ensures rawJson == old(rawJson) && jsonError == old(jsonError)
      ensures resolveError == if started then "" else old(resolveError)
      ensures size == old(size)
    {
      if didAutoResolve {
        return false;
      }
      if targetId == [] || assetHash != [] {
        return false;
      }
      if assetType != Avatar && assetType != Banner {
        return false;
      }
      if |targetId| < 17 {
        return false;
      }
      didAutoResolve := true;
      resolveError := "";
      return true;
    }

    /** `extractHashFromJson`, given what `JSON.parse` made of the pasted text. */
    method ExtractHashFromJson(parsed: Option<Json>)
      modifies this
      ensures Extract(old(assetType), parsed).NewHash? ==>
        assetHash == Extract(old(assetType), parsed).hash && jsonError == ""
      ensures Extract(old(assetType), parsed).ExtractError? ==>
        assetHash == old(assetHash) && jsonError == Extract(old(assetType), parsed).message
      ensures assetType == old(assetType) && targetId == old(targetId) && didAutoResolve == old(didAutoResolve)
      ensures rawJson == old(rawJson) && resolveError == old(resolveError) && size == old(size)
    {
      match Extract(assetType, parsed)
      case NewHash(h) =>
        assetHash := h;
        jsonError := "";
      case ExtractError(m) =>
        jsonError := m;
    }

    /** `clearAll`: ID, hash, JSON text and both errors emptied, auto-resolve re-armed. */
    method ClearAll()
      modifies this
      ensures Valid()
      ensures targetId == "" && assetHash == "" && rawJson == "" && jsonError == "" && resolveError == ""
      ensures !didAutoResolve
      ensures assetType == old(assetType) && size == old(size)
    {
      targetId := "";
      assetHash := "";
      rawJson := "";
      jsonError := "";
      resolveError := "";
      didAutoResolve := false;
    }
  }
}
