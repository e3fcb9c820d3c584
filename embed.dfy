/**
 * The embed creator: an embed record edited key by key, a field list
 * capped at 25 entries, and the import path that turns parsed JSON into an
 * embed.
 */
module EmbedTool {
  import opened Wrappers
  import opened JsonValues
  import Seqs

  /** Discord allows at most 25 fields per embed. */
  const MaxFields: nat := 25

  const DefaultColor: string := "#5865F2"

  datatype Field = Field(name: string, value: string, inline: bool)
  datatype Author = Author(name: string, url: Option<string>, iconUrl: Option<string>)
  datatype Footer = Footer(text: string, iconUrl: Option<string>)
  /** `{ url }`, the shape of both the image and the thumbnail. */
  datatype Media = Media(url: string)

  /** `EmbedData`; `None` is a key that is absent (`undefined`). */
  datatype Embed = Embed(
    title: Option<string>,
    description: Option<string>,
    url: Option<string>,
    color: Option<string>,
    timestamp: Option<string>,
    footer: Option<Footer>,
    image: Option<Media>,
    thumbnail: Option<Media>,
    author: Option<Author>,
    fields: seq<Field>)

  /** The keys of `EmbedData`, and a value for each. */
  datatype Key = TitleKey | DescriptionKey | UrlKey | ColorKey | TimestampKey
               | FooterKey | ImageKey | ThumbnailKey | AuthorKey | FieldsKey

  datatype KeyValue =
    | TextValue(text: Option<string>)
    | FooterValue(footer: Option<Footer>)
    | MediaValue(media: Option<Media>)
    | AuthorValue(author: Option<Author>)
    | FieldsValue(fields: seq<Field>)

  /** `embed[key]`. */
  function Get(e: Embed, k: Key): KeyValue
  {
    match k
    case TitleKey => TextValue(e.title)
    case DescriptionKey => TextValue(e.description)
    case UrlKey => TextValue(e.url)
    case ColorKey => TextValue(e.color)
    case TimestampKey => TextValue(e.timestamp)
    case FooterKey => FooterValue(e.footer)
    case ImageKey => MediaValue(e.image)
    case ThumbnailKey => MediaValue(e.thumbnail)
    case AuthorKey => AuthorValue(e.author)
    case FieldsKey => FieldsValue(e.fields)
  }

  /** A value of the type the key has in `EmbedData`. */
  predicate Fits(k: Key, v: KeyValue)
  {
    match k
    case TitleKey => v.TextValue?
    case DescriptionKey => v.TextValue?
    case UrlKey => v.TextValue?
    case ColorKey => v.TextValue?
    case TimestampKey => v.TextValue?
    case FooterKey => v.FooterValue?
    case ImageKey => v.MediaValue?
    case ThumbnailKey => v.MediaValue?
    case AuthorKey => v.AuthorValue?
    case FieldsKey => v.FieldsValue?
  }

  /** Two embeds that agree on every key are the same embed. */
  lemma KeysDetermine(a: Embed, b: Embed)
    requires forall k :: Get(a, k) == Get(b, k)
    ensures a == b
  {
    assert Get(a, TitleKey) == Get(b, TitleKey);
    assert Get(a, DescriptionKey) == Get(b, DescriptionKey);
    assert Get(a, UrlKey) == Get(b, UrlKey);
    assert Get(a, ColorKey) == Get(b, ColorKey);
    assert Get(a, TimestampKey) == Get(b, TimestampKey);
    assert Get(a, FooterKey) == Get(b, FooterKey);
    assert Get(a, ImageKey) == Get(b, ImageKey);
    assert Get(a, ThumbnailKey) == Get(b, ThumbnailKey);
    assert Get(a, AuthorKey) == Get(b, AuthorKey);
    assert Get(a, FieldsKey) == Get(b, FieldsKey);
  }

  /** `updateEmbed(key, value)`: `{ ...prev, [key]: value }`. */
  function UpdateEmbed(e: Embed, k: Key, v: KeyValue): (r: Embed)
    requires Fits(k, v)
    ensures Get(r, k) == v
    ensures forall k' :: k' != k ==> Get(r, k') == Get(e, k')
  {
    match k
    case TitleKey => e.(title := v.text)
    case DescriptionKey => e.(description := v.text)
    case UrlKey => e.(url := v.text)
    case ColorKey => e.(color := v.text)
    case TimestampKey => e.(timestamp := v.text)
    case FooterKey => e.(footer := v.footer)
    case ImageKey => e.(image := v.media)
    case ThumbnailKey => e.(thumbnail := v.media)
    case AuthorKey => e.(author := v.author)
    case FieldsKey => e.(fields := v.fields)
  }

  /** Writing back the value a key already has changes nothing. */
  lemma UpdateEmbedSameValue(e: Embed, k: Key)
    ensures UpdateEmbed(e, k, Get(e, k)) == e
  {
    KeysDetermine(UpdateEmbed(e, k, Get(e, k)), e);
  }

  const NewField: Field := Field("New Field", "Value", false)

  /** `addField`: a no-op at 25 fields, otherwise a new default field at the end. */
  function AddField(fields: seq<Field>): (r: seq<Field>)
    ensures |fields| >= MaxFields ==> r == fields
    ensures |fields| < MaxFields ==> r == fields + [NewField]
    ensures |fields| <= MaxFields ==> |r| <= MaxFields
  {
    if |fields| >= MaxFields then fields else fields + [NewField]
  }

  /** Any number of `addField` clicks from at most 25 fields stays at most 25. */
  lemma {:induction false} AddFieldRepeatedBounded(fields: seq<Field>, n: nat)
    requires |fields| <= MaxFields
    ensures |AddFieldTimes(fields, n)| <= MaxFields
    decreases n
  {
    if n > 0 {
      AddFieldRepeatedBounded(AddField(fields), n - 1);
    }
  }

  function AddFieldTimes(fields: seq<Field>, n: nat): seq<Field>
    decreases n
  {
    if n == 0 then fields else AddFieldTimes(AddField(fields), n - 1)
  }

  /** Where `splice(index, 1)` starts: a negative index counts from the end. */
  function SpliceStart(len: nat, index: int): (s: nat)
    ensures s <= len
    ensures 0 <= index <= len ==> s == index
    ensures index > len ==> s == len
    ensures index < 0 ==> s == (if len + index >= 0 then len + index else 0)
  {
    if index < 0 then (if len + index >= 0 then len + index else 0)
    else if index > len then len
    else index
  }

  /** `removeField(index)`: a copy of the list with `splice(index, 1)` applied. */
  function RemoveField(fields: seq<Field>, index: int): (r: seq<Field>)
    ensures 0 <= index < |fields| ==> r == fields[..index] + fields[index + 1..]
    ensures index >= |fields| ==> r == fields
    ensures -|fields| <= index < 0 ==> r == fields[..|fields| + index] + fields[|fields| + index + 1..]
    ensures index < -|fields| ==> r == if fields == [] then fields else fields[1..]
  {
    var s := SpliceStart(|fields|, index);
    if s < |fields| then fields[..s] + fields[s + 1..] else fields
  }

  /** Removing an existing field keeps every other field, in order. */
  lemma RemoveFieldKeepsOthers(fields: seq<Field>, index: nat)
    requires index < |fields|
    ensures |RemoveField(fields, index)| == |fields| - 1
    ensures forall j :: 0 <= j < index ==> RemoveField(fields, index)[j] == fields[j]
    ensures forall j :: index <= j < |fields| - 1 ==> RemoveField(fields, index)[j] == fields[j + 1]
  {
  }

  /** The edits the field editor makes: `updateField(i, 'name' | 'value' | 'inline', v)`. */
  datatype FieldEdit = SetName(name: string) | SetValue(value: string) | SetInline(inline: bool)

  function ApplyFieldEdit(f: Field, edit: FieldEdit): (r: Field)
    ensures edit.SetName? ==> r == f.(name := edit.name)
    ensures edit.SetValue? ==> r == f.(value := edit.value)
    ensures edit.SetInline? ==> r == f.(inline := edit.inline)
  {
    match edit
    case SetName(n) => Field(n, f.value, f.inline)
    case SetValue(v) => Field(f.name, v, f.inline)
    case SetInline(b) => Field(f.name, f.value, b)
  }

  /** `updateField(index, key, value)` on a field the editor shows. */
  function UpdateField(fields: seq<Field>, index: nat, edit: FieldEdit): (r: seq<Field>)
    requires index < |fields|
    ensures |r| == |fields|
    ensures r[index] == ApplyFieldEdit(fields[index], edit)
    ensures forall j :: 0 <= j < |fields| && j != index ==> r[j] == fields[j]
  {
    fields[index := ApplyFieldEdit(fields[index], edit)]
  }

  /** `createDefaultEmbed`. */
  const DefaultEmbed: Embed := Embed(
    Some("Welcome to Microtools!"),
    Some("This is an example embed. You can customize title, description, color, media and footer."),
    None,
    Some(DefaultColor),
    None,
    Some(Footer("Crafted with passion for Discord users", None)),
    None,
    None,
    Some(Author("Embed Master", None, None)),
    [Field("Field Name", "This is a value. You can add up to 25 fields.", true),
     Field("Inline Field", "I am right next to it!", true)])

  /** `clearEmbed`. */
  const ClearedEmbed: Embed := Embed(
    Some(""), Some(""), Some(""), Some(DefaultColor), None,
    Some(Footer("", Some(""))), Some(Media("")), Some(Media("")),
    Some(Author("", None, Some(""))), [])

  /** The cleared embed has no fields, empty texts, the default colour and no timestamp. */
  lemma ClearedEmbedIsBlank()
    ensures ClearedEmbed.fields == [] && ClearedEmbed.timestamp.None?
    ensures ClearedEmbed.color == Some("#5865F2")
    ensures ClearedEmbed.title == Some("") && ClearedEmbed.description == Some("") && ClearedEmbed.url == Some("")
  {
  }

  /** One imported field: non-string texts become `""`, `inline` is `Boolean(f.inline)`. */
  function NormalizeField(f: Json): (r: Field)
    ensures r.name == StringProp(f, "name").GetOr("")
    ensures r.value == StringProp(f, "value").GetOr("")
    ensures r.inline == Truthy(Prop(f, "inline"))
  {
    Field(
      match StringProp(f, "name") case Some(s) => s case None => "",
      match StringProp(f, "value") case Some(s) => s case None => "",
      Truthy(Prop(f, "inline")))
  }

  /** `fields.filter(f => f && typeof f === 'object').map(...).slice(0, 25)`. */
  function NormalizeFields(items: seq<Json>): (r: seq<Field>)
    ensures |r| <= MaxFields
    ensures |r| == Min(|Seqs.Filter(items, IsObject)|, MaxFields)
    ensures forall i :: 0 <= i < |r| ==> r[i] == NormalizeField(Seqs.Filter(items, IsObject)[i])
  {
    var objects := Seqs.Filter(items, IsObject);
    var mapped := seq(|objects|, i requires 0 <= i < |objects| => NormalizeField(objects[i]));
    mapped[..Min(|mapped|, MaxFields)]
  }

  function Min(a: nat, b: nat): nat
  {
    if a < b then a else b
  }

  /** The author of an imported embed. */
  function NormalizeAuthor(a: Option<Json>): (r: Author)
    ensures !(a.Some? && IsObject(a.value)) ==> r == Author("", None, None)
    ensures a.Some? && IsObject(a.value) ==>
      r == Author(StringProp(a.value, "name").GetOr(""), StringProp(a.value, "url"), StringProp(a.value, "icon_url"))
  {
    if a.Some? && IsObject(a.value) then
      Author(StringProp(a.value, "name").GetOr(""), StringProp(a.value, "url"), StringProp(a.value, "icon_url"))
    else Author("", None, None)
  }

  function NormalizeFooter(f: Option<Json>): (r: Footer)
    ensures !(f.Some? && IsObject(f.value)) ==> r == Footer("", None)
    ensures f.Some? && IsObject(f.value) ==>
      r == Footer(StringProp(f.value, "text").GetOr(""), StringProp(f.value, "icon_url"))
  {
    if f.Some? && IsObject(f.value) then
      Footer(StringProp(f.value, "text").GetOr(""), StringProp(f.value, "icon_url"))
    else Footer("", None)
  }

  /** An image or thumbnail: its `url` when that is a string, else `""`. */
  function NormalizeMedia(m: Option<Json>): (r: Media)
    ensures m.Some? && IsObject(m.value) && StringProp(m.value, "url").Some? ==>
      r == Media(StringProp(m.value, "url").value)
    ensures !(m.Some? && StringProp(m.value, "url").Some?) ==> r == Media("")
  {
    if m.Some? && IsObject(m.value) && StringProp(m.value, "url").Some? then
      Media(StringProp(m.value, "url").value)
    else Media("")
  }

  /** The input is a message export: its `embeds` key holds a non-empty array. */
  predicate HasEmbeds(source: Json)
  {
    Prop(source, "embeds").Some? && Prop(source, "embeds").value.JArray?
    && |Prop(source, "embeds").value.items| > 0
  }

  /**
   * The object the import reads: `embeds[0]` of a message export, and the
   * input itself otherwise.
   */
  function Candidate(source: Json): (c: Json)
    ensures HasEmbeds(source) ==> c == Prop(source, "embeds").value.items[0]
    ensures !HasEmbeds(source) ==> c == source
  {
    match Prop(source, "embeds")
    case Some(JArray(items)) => if |items| > 0 then items[0] else source
    case _ => source
  }

  /**
   * `normalizeImportedEmbed`: `null` unless the input is an object (arrays
   * count) and so is the element it reads; otherwise an embed with every
   * key present and defaults for missing or mistyped values.
   */
  function Normalize(input: Json): (r: Option<Embed>)
    ensures !IsObject(input) ==> r.None?
    ensures IsObject(input) ==> (r.Some? <==> IsObject(Candidate(input)))
    ensures r.Some? ==>
      var c := Candidate(input);
      && r.value.title == Some(StringProp(c, "title").GetOr(""))
      && r.value.description == Some(StringProp(c, "description").GetOr(""))
      && r.value.url == Some(StringProp(c, "url").GetOr(""))
      && r.value.color == Some(StringProp(c, "color").GetOr(DefaultColor))
      && r.value.timestamp == StringProp(c, "timestamp")
      && r.value.author == Some(NormalizeAuthor(Prop(c, "author")))
      && r.value.footer == Some(NormalizeFooter(Prop(c, "footer")))
      && r.value.image == Some(NormalizeMedia(Prop(c, "image")))
      && r.value.thumbnail == Some(NormalizeMedia(Prop(c, "thumbnail")))
    ensures r.Some? ==> |r.value.fields| <= MaxFields
    ensures r.Some? ==>
      r.value.fields == match Prop(Candidate(input), "fields")
                        case Some(JArray(items)) => NormalizeFields(items)
                        case _ => []
  {
    if !IsObject(input) then None
    else
      var c := Candidate(input);
      if !IsObject(c) then None
      else
        Some(Embed(
          Some(StringProp(c, "title").GetOr("")),
          Some(StringProp(c, "description").GetOr("")),
          Some(StringProp(c, "url").GetOr("")),
          Some(StringProp(c, "color").GetOr(DefaultColor)),
          StringProp(c, "timestamp"),
          Some(NormalizeFooter(Prop(c, "footer"))),
          Some(NormalizeMedia(Prop(c, "image"))),
          Some(NormalizeMedia(Prop(c, "thumbnail"))),
          Some(NormalizeAuthor(Prop(c, "author"))),
          match Prop(c, "fields")
          case Some(JArray(items)) => NormalizeFields(items)
          case _ => []))
  }

  /** `JSON.stringify` of a field, read back by `JSON.parse`. */
  function FieldToJson(f: Field): Json
  {
    JObject(map["name" := JString(f.name), "value" := JString(f.value), "inline" := JBool(f.inline)])
  }

  function FieldsToJson(fields: seq<Field>): (r: Json)
    ensures r.JArray? && |r.items| == |fields|
    ensures forall i :: 0 <= i < |fields| ==> r.items[i] == FieldToJson(fields[i])
  {
    JArray(seq(|fields|, i requires 0 <= i < |fields| => FieldToJson(fields[i])))
  }

  /** Adds a string-valued key; `undefined` values are left out, as `JSON.stringify` does. */
  function PutText(m: map<string, Json>, key: string, v: Option<string>): (r: map<string, Json>)
    ensures v.None? ==> r == m
    ensures v.Some? ==> key in r && r[key] == JString(v.value)
    ensures forall k :: k != key ==> (k in r <==> k in m) && (k in r ==> r[k] == m[k])
  {
    if v.Some? then m[key := JString(v.value)] else m
  }

  function AuthorToJson(a: Author): Json
  {
    JObject(PutText(PutText(map["name" := JString(a.name)], "url", a.url), "icon_url", a.iconUrl))
  }

  function FooterToJson(f: Footer): Json
  {
    JObject(PutText(map["text" := JString(f.text)], "icon_url", f.iconUrl))
  }

  function MediaToJson(m: Media): Json
  {
    JObject(map["url" := JString(m.url)])
  }

  /** The embed object as `exportJson` writes it, once parsed again. */
  function ExportObject(e: Embed): map<string, Json>
  {
    var m0 := map["fields" := FieldsToJson(e.fields)];
    var m1 := PutText(PutText(PutText(PutText(PutText(m0, "title", e.title), "description", e.description),
                                      "url", e.url), "color", e.color), "timestamp", e.timestamp);
    var m2 := if e.footer.Some? then m1["footer" := FooterToJson(e.footer.value)] else m1;
    var m3 := if e.image.Some? then m2["image" := MediaToJson(e.image.value)] else m2;
    var m4 := if e.thumbnail.Some? then m3["thumbnail" := MediaToJson(e.thumbnail.value)] else m3;
    if e.author.Some? then m4["author" := AuthorToJson(e.author.value)] else m4
  }

  /** The exported file, `{ embeds: [embed] }`. */
  function Export(e: Embed): Json
  {
    JObject(map["embeds" := JArray([JObject(ExportObject(e))])])
  }

  /** An embed with every key that the import always fills in present. */
  predicate Complete(e: Embed)
  {
    e.title.Some? && e.description.Some? && e.url.Some? && e.color.Some?
    && e.footer.Some? && e.image.Some? && e.thumbnail.Some? && e.author.Some?
    && |e.fields| <= MaxFields
  }

  lemma FieldRoundTrip(f: Field)
    ensures IsObject(FieldToJson(f)) && NormalizeField(FieldToJson(f)) == f
  {
  }

  lemma FieldsRoundTrip(fields: seq<Field>)
    requires |fields| <= MaxFields
    ensures NormalizeFields(FieldsToJson(fields).items) == fields
  {
    var items := FieldsToJson(fields).items;
    forall i | 0 <= i < |items| ensures IsObject(items[i]) {
      FieldRoundTrip(fields[i]);
    }
    Seqs.FilterAll(items, IsObject);
    forall i | 0 <= i < |fields| ensures NormalizeField(items[i]) == fields[i] {
      FieldRoundTrip(fields[i]);
    }
  }

  lemma ExportTitle(e: Embed)
    ensures StringProp(JObject(ExportObject(e)), "title") == e.title
  {
  }

  lemma ExportDescription(e: Embed)
    ensures StringProp(JObject(ExportObject(e)), "description") == e.description
  {
  }

  lemma ExportUrl(e: Embed)
    ensures StringProp(JObject(ExportObject(e)), "url") == e.url
  {
  }

  lemma ExportColor(e: Embed)
    ensures StringProp(JObject(ExportObject(e)), "color") == e.color
  {
  }

  lemma ExportTimestamp(e: Embed)
    ensures StringProp(JObject(ExportObject(e)), "timestamp") == e.timestamp
  {
  }

  /** The five text keys come back as they were exported. */
  lemma ExportTexts(e: Embed)
    ensures var c := JObject(ExportObject(e));
      && StringProp(c, "title") == e.title
      && StringProp(c, "description") == e.description
      && StringProp(c, "url") == e.url
      && StringProp(c, "color") == e.color
      && StringProp(c, "timestamp") == e.timestamp
  {
    ExportTitle(e);
    ExportDescription(e);
    ExportUrl(e);
    ExportColor(e);
    ExportTimestamp(e);
  }

  lemma ExportFooter(e: Embed)
    requires e.footer.Some?
    ensures NormalizeFooter(Prop(JObject(ExportObject(e)), "footer")) == e.footer.value
  {
  }

  lemma ExportImage(e: Embed)
    requires e.image.Some?
    ensures NormalizeMedia(Prop(JObject(ExportObject(e)), "image")) == e.image.value
  {
  }

  lemma ExportThumbnail(e: Embed)
    requires e.thumbnail.Some?
    ensures NormalizeMedia(Prop(JObject(ExportObject(e)), "thumbnail")) == e.thumbnail.value
  {
  }

  lemma ExportAuthor(e: Embed)
    requires e.author.Some?
    ensures NormalizeAuthor(Prop(JObject(ExportObject(e)), "author")) == e.author.value
  {
  }

  /** The four nested objects come back as they were exported. */
  lemma ExportParts(e: Embed)
    requires Complete(e)
    ensures var c := JObject(ExportObject(e));
      && NormalizeFooter(Prop(c, "footer")) == e.footer.value
      && NormalizeMedia(Prop(c, "image")) == e.image.value
      && NormalizeMedia(Prop(c, "thumbnail")) == e.thumbnail.value
      && NormalizeAuthor(Prop(c, "author")) == e.author.value
  {
    ExportFooter(e);
    ExportImage(e);
    ExportThumbnail(e);
    ExportAuthor(e);
  }

  lemma ExportFields(e: Embed)
    requires |e.fields| <= MaxFields
    ensures Prop(JObject(ExportObject(e)), "fields") == Some(FieldsToJson(e.fields))
  {
  }

  /** Exporting a complete embed and importing the file gives the same embed back. */
  lemma ExportImportRoundTrip(e: Embed)
    requires Complete(e)
    ensures Normalize(Export(e)) == Some(e)
  {
    var c := JObject(ExportObject(e));
    assert Candidate(Export(e)) == c;
    var r := Normalize(Export(e)).value;
    ExportTexts(e);
    assert r.title == e.title && r.description == e.description && r.url == e.url;
    assert r.color == e.color && r.timestamp == e.timestamp;
    ExportParts(e);
    assert r.footer == e.footer && r.image == e.image && r.thumbnail == e.thumbnail && r.author == e.author;
    ExportFields(e);
    FieldsRoundTrip(e.fields);
    assert r.fields == e.fields;
  }

  /** The cleared embed survives an export and re-import unchanged. */
  lemma ClearedEmbedRoundTrip()
    ensures Normalize(Export(ClearedEmbed)) == Some(ClearedEmbed)
  {
    ExportImportRoundTrip(ClearedEmbed);
  }

  /** The editor's state. */
  class EmbedEditor {
    var embed: Embed
    var importError: string

    predicate Valid()
      reads this
    {
      |embed.fields| <= MaxFields
    }

    constructor()
      ensures Valid()
      ensures embed == DefaultEmbed && importError == ""
    {
      embed := DefaultEmbed;
      importError := "";
    }

    method Update(k: Key, v: KeyValue)
      requires Fits(k, v)
      requires k == FieldsKey ==> |v.fields| <= MaxFields
      requires Valid()
      modifies this
      ensures Valid()
      ensures embed == UpdateEmbed(old(embed), k, v) && importError == old(importError)
    {
      embed := UpdateEmbed(embed, k, v);
    }

    method AddFieldClick()
      requires Valid()
      modifies this
      ensures Valid()
      ensures embed == old(embed).(fields := AddField(old(embed).fields)) && importError == old(importError)
    {
      embed := UpdateEmbed(embed, FieldsKey, FieldsValue(AddField(embed.fields)));
    }

    method RemoveFieldClick(index: int)
      requires Valid()
      modifies this
      ensures Valid()
      ensures embed == old(embed).(fields := RemoveField(old(embed).fields, index)) && importError == old(importError)
    {
      var newFields := RemoveField(embed.fields, index);
      embed := UpdateEmbed(embed, FieldsKey, FieldsValue(newFields));
    }

    method UpdateFieldEdit(index: nat, edit: FieldEdit)
      requires Valid() && index < |embed.fields|
      modifies this
      ensures Valid()
      ensures embed == old(embed).(fields := UpdateField(old(embed).fields, index, edit)) && importError == old(importError)
    {
      embed := UpdateEmbed(embed, FieldsKey, FieldsValue(UpdateField(embed.fields, index, edit)));
    }

    /** `toggleTimestamp`; the clock's ISO text is passed in. */
    method ToggleTimestamp(enabled: bool, nowIso: string)
      requires Valid()
      modifies this
      ensures Valid()
      ensures embed == old(embed).(timestamp := if enabled then Some(nowIso) else None)
      ensures importError == old(importError)
    {
      embed := UpdateEmbed(embed, TimestampKey, TextValue(if enabled then Some(nowIso) else None));
    }

    method Clear()
      requires Valid()
      modifies this
      ensures Valid()
      ensures embed == ClearedEmbed && importError == old(importError)
    {
      embed := ClearedEmbed;
    }

    /** `importJson`, given what `JSON.parse` made of the file (`None` when it threw). */
    method ImportJson(parsed: Option<Json>)
      requires Valid()
      modifies this
      ensures Valid()
      ensures parsed.Some? && Normalize(parsed.value).Some? ==>
        embed == Normalize(parsed.value).value && importError == ""
      ensures !(parsed.Some? && Normalize(parsed.value).Some?) ==>
        embed == old(embed)
        && importError == "Invalid JSON file. Expected an embed object or { embeds: [...] }."
    {
      var normalized := if parsed.Some? then Normalize(parsed.value) else None;
      if normalized.None? {
        importError := "Invalid JSON file. Expected an embed object or { embeds: [...] }.";
      } else {
        embed := normalized.value;
        importError := "";
      }
    }
  }
}
