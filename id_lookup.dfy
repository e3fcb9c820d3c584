/**
 * The ID lookup tool: a second copy of the Snowflake decoder that yields a
 * creation date, an age in whole years (against a clock reading passed in
 * as `now`), Unix seconds, and the link into the asset tool.
 */
module IdLookupTool {
  import opened Wrappers
  import opened Decimal
  import opened Bits
  import SnowflakeTool
  import UrlParams

  /** `1000 * 60 * 60 * 24 * 365`: a year of 365 days, in milliseconds. */
  const MsPerYear: nat := 31536000000

  /** The largest magnitude a JS `Date` accepts; beyond it the date is invalid. */
  const MaxDateMs: nat := 8640000000000000

  /** A JS `Date`: an invalid one still counts as an object (it is truthy). */
  datatype JsDate = InvalidDate | ValidDate(time: nat)

  /** Whole-year age: absent without a date, `NaN` for an invalid date. */
  datatype Age = NoAge | Years(years: nat) | NotANumber

  datatype SnowflakeParts = SnowflakeParts(workerId: nat, processId: nat, increment: nat)

  /** The record the tool shows and copies as JSON (the ISO text is left out). */
  datatype ParsedData = ParsedData(
    id: string,
    createdAtUnix: nat,
    createdAtMs: nat,
    ageYears: Age,
    snowflake: SnowflakeParts)

  /** `new Date(t)` for a non-negative millisecond count. */
  function MakeDate(t: nat): (d: JsDate)
    ensures d.ValidDate? <==> t <= MaxDateMs
    ensures d.ValidDate? ==> d.time == t
  {
    if t <= MaxDateMs then ValidDate(t) else InvalidDate
  }

  /** This copy's `decodeSnowflake`: `null` for non-digit text, else the creation date. */
  function CreationDate(s: string): (r: Option<JsDate>)
    ensures r.None? <==> !SnowflakeTool.IsSnowflakeText(s)
  {
    if !SnowflakeTool.IsSnowflakeText(s) then None
    else Some(MakeDate(ShiftRight(Value(s), 22) + SnowflakeTool.DiscordEpoch))
  }

  /** Both decoders agree on the creation time whenever the date is valid. */
  lemma CreationAgrees(s: string)
    ensures CreationDate(s).None? <==> SnowflakeTool.Decode(s).None?
    ensures CreationDate(s).Some? ==>
      (CreationDate(s).value.ValidDate? <==> SnowflakeTool.Decode(s).value.timestampMs <= MaxDateMs)
    ensures CreationDate(s).Some? && CreationDate(s).value.ValidDate? ==>
      CreationDate(s).value.time == SnowflakeTool.Decode(s).value.timestampMs
  {
  }

  /**
   * `Math.max(0, Math.floor((now - created) / MsPerYear))`, with an invalid
   * date giving `NaN` (which `Math.max` passes through).
   */
  function YearsOld(creation: Option<JsDate>, now: int): (r: Age)
    ensures r.NoAge? <==> creation.None?
    ensures r.NotANumber? <==> creation == Some(InvalidDate)
    ensures r.Years? ==> creation.Some? && creation.value.ValidDate?
  {
    match creation
    case None => NoAge
    case Some(InvalidDate) => NotANumber
    case Some(ValidDate(t)) => Years(if now - t >= 0 then (now - t) / MsPerYear else 0)
  }

  /** The age is the number of whole years elapsed, and zero for a date in the future. */
  lemma YearsOldIsWholeYears(t: nat, now: int)
    ensures YearsOld(Some(ValidDate(t)), now).Years?
    ensures now < t ==> YearsOld(Some(ValidDate(t)), now).years == 0
    ensures now >= t ==>
      var y := YearsOld(Some(ValidDate(t)), now).years;
      y * MsPerYear <= now - t < (y + 1) * MsPerYear
  {
  }

  /** The fields this copy computes with its own shifts and masks. */
  function Parts(id: nat): SnowflakeParts
  {
    SnowflakeParts(
      ShiftRight(And(id, 0x3e0000), 17),
      ShiftRight(And(id, 0x1f000), 12),
      And(id, 0xfff))
  }

  /** `parsedData`: `null` for bad text and for an invalid date (`toISOString` throws). */
  function Parse(id: string, now: int): (r: Option<ParsedData>)
    ensures r.Some? <==> SnowflakeTool.IsSnowflakeText(id) && CreationDate(id).value.ValidDate?
    ensures r.Some? ==>
      && r.value.id == id
      && r.value.createdAtMs == CreationDate(id).value.time
      && r.value.createdAtUnix == r.value.createdAtMs / 1000
      && r.value.ageYears == YearsOld(CreationDate(id), now)
  {
    var creation := CreationDate(id);
    if creation.None? then None
    else match creation.value
      case InvalidDate => None
      case ValidDate(t) =>
        Some(ParsedData(id, t / 1000, t, YearsOld(creation, now), Parts(Value(id))))
  }

  /**
   * The two decoders agree field for field: the record's parts and creation
   * time are the Snowflake tool's.
   */
  lemma DecodersAgree(id: string, now: int)
    requires Parse(id, now).Some?
    ensures SnowflakeTool.Decode(id).Some?
    ensures var d, p := SnowflakeTool.Decode(id).value, Parse(id, now).value;
      && p.createdAtMs == d.timestampMs
      && p.snowflake.workerId == d.workerId
      && p.snowflake.processId == d.processId
      && p.snowflake.increment == d.increment
  {
    var v := Value(id);
    SnowflakeTool.MaskLayout();
    FieldMask(v, 5, 17);
    FieldMask(v, 5, 12);
    AndMask(v, 12);
  }

  /** A valid ID's age is a whole number of years; a parsed record never carries `NaN`. */
  lemma ParsedAgeIsYears(id: string, now: int)
    requires Parse(id, now).Some?
    ensures Parse(id, now).value.ageYears.Years?
  {
  }

  /** The query of `openAssetCdn`: nothing when the ID is empty. */
  function AssetCdnQuery(id: string): (r: Option<seq<UrlParams.Param>>)
    ensures r.None? <==> id == []
    ensures r.Some? ==>
      && UrlParams.Get(r.value, "tool") == Some("asset-cdn")
      && UrlParams.Get(r.value, "id") == Some(id)
      && UrlParams.Get(r.value, "type") == Some("avatar")
  {
    if id == [] then None
    else
      var p := UrlParams.Set(UrlParams.Set(UrlParams.Set([], "tool", "asset-cdn"), "id", id), "type", "avatar");
      Some(p)
  }

  /** The query holds exactly those three pairs, in that order. */
  lemma AssetCdnQueryExact(id: string)
    requires id != []
    ensures AssetCdnQuery(id) == Some([("tool", "asset-cdn"), ("id", id), ("type", "avatar")])
  {
    var p1 := [("tool", "asset-cdn")];
    assert UrlParams.Set([], "tool", "asset-cdn") == p1;
    assert UrlParams.Named(p1, "id") == [] by { assert p1[0].0 != "id"; }
    var p2 := p1 + [("id", id)];
    assert UrlParams.Set(p1, "id", id) == p2;
    assert UrlParams.Named(p2, "type") == [] by {
      assert p2[0].0 != "type" && p2[1].0 != "type";
      UrlParams.NamedAppend(p1, [("id", id)], "type");
    }
    assert UrlParams.Set(p2, "type", "avatar") == p2 + [("type", "avatar")];
    assert p2 + [("type", "avatar")] == [("tool", "asset-cdn"), ("id", id), ("type", "avatar")];
  }
}
