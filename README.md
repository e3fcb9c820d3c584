# Microtools core, modelled in Dafny

Microtools is a single-page web app with a set of small Discord helpers.
This project models the logic behind them, and the shell that picks which
tool is shown:

- the Snowflake decoder: a Discord ID's timestamp, worker, process and increment fields. The ID is read with `BigInt`, so every digit counts and nothing is truncated; the model's unbounded naturals keep exactly that;
- the ID lookup: creation date, age in years, the JSON record and the link into the asset tool;
- the permission calculator: a bit-flag total toggled flag by flag, and a catalog search;
- the bot invite generator: client ID, permissions and an OAuth2 scope list rendered as a link;
- the asset CDN helper: avatar, icon and banner links, the default-avatar index, hash extraction from pasted JSON, and the once-only automatic hash lookup;
- the embed creator: an embed edited key by key, a field list capped at 25, and JSON export and import;
- the text transformer: mocking case, regional indicators, small caps, upper and lower case, title case, reversed text, leet speak, snake case and kebab case;
- the channel decorator: channel-name clean-up, four fonts, and emoji prefixes;
- the Markdown helper: a buffer that snippets are appended to;
- the colour guide: hex text to decimal through `parseInt(…, 16)`, and the brand palette;
- the app shell: the opening collection, tool and theme read from the URL and from storage, the sidebar and home searches, grouping by section, and the query string kept in step with what is shown.

Each source file has its own module: `SnowflakeTool`, `IdLookupTool`,
`PermissionTool`, `InviteTool`, `AssetHelperTool`, `EmbedTool`,
`TextTransformTool`, `ChannelDecoratorTool`, `MarkdownTool`, `ColorTool` and `App`.

Pure derivations are functions with lemmas. State that React components
replace step by step is a class with `modifies` methods:

- `PermissionCalculator`: the running total;
- `InviteBuilder`: the form;
- `AssetHelper`: the asset form and its `didAutoResolve` flag;
- `EmbedEditor`: the embed and the import error;
- `MarkdownEditor`: the text buffer;
- `Shell`: the app's collection, tool, searches, theme and query-parameter list.

Shared modules model the JavaScript built-ins the tools rely on:

- `Chars`: ASCII case mapping, and the `\s` whitespace set;
- `JsText`: `trim`, `trimStart`, `split(/\s+/)`, and global character-class `replace`;
- `Decimal`: the `/^\d+$/` guard, `BigInt` of a digit string, `toString`, and `replace(/\D/g, '')`;
- `Bits`: `&`, `|`, `&~`, `^` and shifts on unbounded naturals, characterised bit by bit;
- `UrlParams`: `URLSearchParams` as an ordered pair list, with `get`, `has`, `set` and `delete`;
- `JsonValues`: parsed JSON values and property reads;
- `Seqs`: filter, join, reverse and substring search;
- `Wrappers`: `Option`.

Three behaviours of the code that a reader might not expect:

- A permission toggle undone by a second toggle restores the total, and toggles of different flags commute, only when the flag's bits are all set or all clear, and when the flags are disjoint. `PartialOverlapDoesNotRestore` and `OverlappingTogglesDiffer` give the counterexamples.
- The total stays the bitwise union of some catalog flags only when no two catalog flags share a bit (`ToggleKeepsWholeFlags`). With overlapping flags 1 and 3, toggling 3 and then 1 leaves 2, which is no union of catalog flags (`OverlappingFlagsBreakUnion`).
- `hexToInt` removes only the first `#` (`replace('#', '')` with a string pattern), so `##5865F2` is `NaN`.

## Model

| member | source | states |
|---|---|---|
| SnowflakeTool.MaskLayout | discordTools/SnowflakeTool.tsx:14-16 | the masks 0x3E0000, 0x1F000 and 0xFFF select 5 bits from bit 17, 5 bits from bit 12, and the low 12 bits |
| SnowflakeTool.Decode | discordTools/SnowflakeTool.tsx:9-28 | null exactly when the text is empty or not all digits; otherwise timestamp = ID div 2^22 + the Discord epoch, worker = bits 17-21, process = bits 12-16, increment = the low 12 bits, each field in range |
| SnowflakeTool.ReassembleBit | discordTools/SnowflakeTool.tsx:13-16 | bit i of the four fields shifted back into place and or-ed together is bit i of the ID |
| SnowflakeTool.DecodeLossless | discordTools/SnowflakeTool.tsx:12-16 | putting the decoded fields back together with shifts and `|` gives the ID back: decoding loses nothing |
| SnowflakeTool.DecodeZero | discordTools/SnowflakeTool.tsx:11-16 | "0" decodes to the epoch with all fields zero |
| SnowflakeTool.DecodeExample | discordTools/SnowflakeTool.tsx:12-16 | 175928847299117063 decodes to 1462015105796 ms, worker 1, process 0, increment 7 |
| SnowflakeTool.StoredInputDecodes | discordTools/SnowflakeTool.tsx:46 | the text kept by the digit-only input decodes unless it is empty |
| Decimal.StripNonDigits | discordTools/SnowflakeTool.tsx:46 | `replace(/\D/g, '')` keeps all the digits, only digits, in order, each as often as in the input, and leaves digit text unchanged |
| Seqs.FilterCounts | discordTools/SnowflakeTool.tsx:46 | a filter keeps each element satisfying the predicate as often as the input holds it, and no other |
| Seqs.FilterUnique | discordTools/SnowflakeTool.tsx:46 | a subsequence with those counts is the filter itself, so any such result is unique |
| Decimal.ToDecimal | discordTools/PermissionTool.tsx:27 | `toString` of a natural number is a digit string with no leading zero that denotes the number |
| Decimal.ToDecimalOfValue | discordTools/PermissionTool.tsx:44 | printing the value of a canonical digit string gives the string back |
| IdLookupTool.MakeDate | discordTools/IDLookupTool.tsx:14 | `new Date(t)` is valid exactly when t is at most 8.64e15 ms |
| IdLookupTool.CreationDate | discordTools/IDLookupTool.tsx:9-18 | null exactly when the text is empty or not all digits |
| IdLookupTool.CreationAgrees | discordTools/IDLookupTool.tsx:9-18 | this decoder rejects what the Snowflake decoder rejects, and its date is that decoder's timestamp whenever the date is valid |
| IdLookupTool.YearsOld | discordTools/IDLookupTool.tsx:21-23 | no age without a date, NaN for an invalid date, a whole number of years otherwise |
| IdLookupTool.YearsOldIsWholeYears | discordTools/IDLookupTool.tsx:22 | the age y satisfies y·(365-day year) ≤ elapsed time < (y+1)·year, and is 0 for a date in the future |
| IdLookupTool.Parse | discordTools/IDLookupTool.tsx:25-47 | null exactly for bad text or an invalid date; otherwise it holds the ID, the creation time in ms, that time div 1000 as Unix seconds, and the age |
| IdLookupTool.DecodersAgree | discordTools/IDLookupTool.tsx:28-31 | the record's worker, process, increment and creation time equal the Snowflake decoder's |
| IdLookupTool.ParsedAgeIsYears | discordTools/IDLookupTool.tsx:21-37 | a parsed record never carries a NaN age |
| IdLookupTool.AssetCdnQuery | discordTools/IDLookupTool.tsx:56-61 | nothing is built for an empty ID; otherwise `tool` is asset-cdn, `id` is the ID and `type` is avatar |
| IdLookupTool.AssetCdnQueryExact | discordTools/IDLookupTool.tsx:58-61 | the query is exactly those three pairs, in that order |
| PermissionTool.ToggleValue | discordTools/PermissionTool.tsx:11-17 | every bit of the flag becomes "not previously active", and every other bit is unchanged |
| PermissionTool.ToggleOnlyTouchesFlag | discordTools/PermissionTool.tsx:11-17 | `(new ^ old) & ~flag == 0` |
| PermissionTool.ToggleFlipsActive | discordTools/PermissionTool.tsx:11-17 | for a nonzero flag, a toggle flips whether the flag shows as active |
| PermissionTool.DoubleToggleRestores | discordTools/PermissionTool.tsx:11-17 | toggling twice restores the total when the flag's bits were all set or all clear |
| PermissionTool.SingleBitToggleRestores | discordTools/PermissionTool.tsx:11-17 | a single-bit flag toggled twice always restores the total |
| PermissionTool.PartialOverlapDoesNotRestore | discordTools/PermissionTool.tsx:11-17 | total 1 toggled twice by flag 3 becomes 0, not 1 |
| PermissionTool.OverlappingTogglesDiffer | discordTools/PermissionTool.tsx:11-17 | from 0, flags 1 then 3 give 3, but 3 then 1 give 2 |
| PermissionTool.DisjointToggleKeepsActive | discordTools/PermissionTool.tsx:11-17 | toggling a flag disjoint from another leaves the other's active state alone |
| PermissionTool.DisjointTogglesCommute | discordTools/PermissionTool.tsx:11-17 | toggles of disjoint flags commute |
| PermissionTool.ToggleFromZero | discordTools/PermissionTool.tsx:7-17 | from the initial 0 a toggle gives the flag itself |
| PermissionTool.ZeroWholeFlags | discordTools/PermissionTool.tsx:7 | the initial 0 is made of whole catalog flags (the union of none) |
| PermissionTool.ToggleKeepsWholeFlags | discordTools/PermissionTool.tsx:11-17 | over a catalog whose flags share no bit, toggling a catalog flag keeps the total made of whole flags: every set bit in some flag, no flag half set |
| PermissionTool.OverlappingFlagsBreakUnion | discordTools/PermissionTool.tsx:11-17 | with overlapping flags 1 and 3, toggling 3 then 1 gives 2, which is none of 0, 1, 3, 1\|3 and leaves flag 3 half set |
| PermissionTool.FilterPermissions | discordTools/PermissionTool.tsx:19-24 | the result is the entries whose name or description contains the query, ignoring case, in catalog order: a subsequence with only matches and every match, each as often as in the catalog |
| PermissionTool.EmptyQueryKeepsAll | discordTools/PermissionTool.tsx:19-24 | the empty query lists the whole catalog |
| PermissionTool.PermissionCalculator.constructor | discordTools/PermissionTool.tsx:7 | the total starts at 0 |
| PermissionTool.PermissionCalculator.Toggle | discordTools/PermissionTool.tsx:11-17 | the new total is the toggle of the old one |
| PermissionTool.PermissionCalculator.Reset | discordTools/PermissionTool.tsx:56 | the total is 0 again |
| PermissionTool.PermissionCalculator.ResultText | discordTools/PermissionTool.tsx:27 | the shown and copied text is the canonical decimal form of the total |
| InviteTool.ToggledScopes | discordTools/InviteTool.tsx:21-25 | the scope is present afterwards exactly when it was absent before; no other scope's presence changes; an absent scope is appended; removal gives a shorter subsequence; no duplicates are created |
| InviteTool.ToggleRemovesOnePosition | discordTools/InviteTool.tsx:21-25 | in a list without duplicates, removing a scope deletes exactly its one position |
| InviteTool.ToggleAddThenRemove | discordTools/InviteTool.tsx:21-25 | adding a missing scope and toggling it again gives the list back |
| InviteTool.OrDefault | discordTools/InviteTool.tsx:27 | a blank input is replaced by its placeholder, anything else is kept |
| InviteTool.DefaultsNoAmpersand | discordTools/InviteTool.tsx:27 | digit-only inputs and their placeholders contain no `&` |
| InviteTool.InviteLinkDetermines | discordTools/InviteTool.tsx:27 | equal links from digit-only inputs have the same effective client ID, permissions and joined scope text |
| InviteTool.InitialLink | discordTools/InviteTool.tsx:5-7 | the opening form gives `…client_id=CLIENT_ID&permissions=8&scope=bot%20applications.commands` |
| InviteTool.AvailableScopesDistinct | discordTools/InviteTool.tsx:10-19 | the offered scopes are distinct |
| InviteTool.InviteBuilder.constructor | discordTools/InviteTool.tsx:5-7 | empty client ID, permissions "8", scopes bot and applications.commands |
| InviteTool.InviteBuilder.SetClientId | discordTools/InviteTool.tsx:53 | the client ID becomes the input's digits; nothing else changes |
| InviteTool.InviteBuilder.SetPermissions | discordTools/InviteTool.tsx:67 | the permissions become the input's digits; nothing else changes |
| InviteTool.InviteBuilder.ToggleScope | discordTools/InviteTool.tsx:21-25 | the scope list becomes its toggle and stays free of duplicates |
| InviteTool.InviteBuilder.CopyText | discordTools/InviteTool.tsx:29-31 | nothing is copied while the client ID is empty; otherwise the link is copied |
| AssetHelperTool.InitialType | discordTools/AssetHelperTool.tsx:7-11 | the `type` parameter when it names a type, otherwise avatar |
| AssetHelperTool.InitialId | discordTools/AssetHelperTool.tsx:12 | the digits of the `id` parameter, or empty without one |
| AssetHelperTool.GetUrl | discordTools/AssetHelperTool.tsx:28-41 | empty exactly when the ID or the hash is empty; otherwise `https://cdn.discordapp.com/<folder>/<id>/<hash>.png?size=<size>` |
| AssetHelperTool.GetUrlTellsTypes | discordTools/AssetHelperTool.tsx:31-37 | different types give different links |
| AssetHelperTool.DefaultAvatarIndex | discordTools/AssetHelperTool.tsx:24 | `(id >> 22) % 6`: in 0..5, 0 without an ID, and equal to the Snowflake time part modulo 6 |
| AssetHelperTool.DownloadUrl | discordTools/AssetHelperTool.tsx:23-44 | the CDN link when there is one, else the unavatar link for an avatar with an ID |
| AssetHelperTool.DownloadUrlEmptyIff | discordTools/AssetHelperTool.tsx:23-44 | nothing to download exactly when there is no ID, or there is no hash and the type is not avatar |
| AssetHelperTool.Extract | discordTools/AssetHelperTool.tsx:73-91 | a new hash exactly when the parsed value's key named after the type is a non-empty string; "Invalid JSON." when parsing failed or gave null; otherwise "Could not find …" |
| AssetHelperTool.CleanedParams | discordTools/AssetHelperTool.tsx:126-133 | nothing is rewritten when neither `id` nor `type` is present; otherwise `id`, `type` and `assetHash` are gone and every other parameter stays |
| AssetHelperTool.AssetHelper.constructor | discordTools/AssetHelperTool.tsx:6-26 | type and ID from the query, empty hash, JSON text and errors, size 1024, auto-resolve armed |
| AssetHelperTool.AssetHelper.CopyText | discordTools/AssetHelperTool.tsx:46-48 | nothing is copied without a link; otherwise the link is copied |
| AssetHelperTool.AssetHelper.SetType | discordTools/AssetHelperTool.tsx:156 | only the type changes |
| AssetHelperTool.AssetHelper.SetTargetId | discordTools/AssetHelperTool.tsx:171 | the ID becomes the input's digits; nothing else changes |
| AssetHelperTool.AssetHelper.SetAssetHash | discordTools/AssetHelperTool.tsx:188 | only the hash changes |
| AssetHelperTool.AssetHelper.SetRawJson | discordTools/AssetHelperTool.tsx:215 | only the pasted JSON text changes |
| AssetHelperTool.AssetHelper.SetSize | discordTools/AssetHelperTool.tsx:233 | only the size changes |
| AssetHelperTool.AssetHelper.AutoResolve | discordTools/AssetHelperTool.tsx:117-124 | the lookup starts exactly when it has not started before and there is an ID of at least 17 digits, no hash, and type avatar or banner; the flag is then set and the lookup error cleared |
| AssetHelperTool.AssetHelper.ExtractHashFromJson | discordTools/AssetHelperTool.tsx:73-91 | on success the hash is set and the error cleared; on failure only the error text changes |
| AssetHelperTool.AssetHelper.ClearAll | discordTools/AssetHelperTool.tsx:135-142 | ID, hash, JSON text and both errors are empty, and auto-resolve is armed again; type and size stay |
| EmbedTool.UpdateEmbed | discordTools/EmbedTool.tsx:23-25 | the key gets the value and every other key keeps its value |
| EmbedTool.UpdateEmbedSameValue | discordTools/EmbedTool.tsx:23-25 | writing back a key's own value changes nothing |
| EmbedTool.AddField | discordTools/EmbedTool.tsx:27-30 | at 25 fields nothing changes; below, the default field is appended; the cap holds |
| EmbedTool.AddFieldRepeatedBounded | discordTools/EmbedTool.tsx:27-30 | any number of clicks keeps at most 25 fields |
| EmbedTool.SpliceStart | discordTools/EmbedTool.tsx:34 | where `splice(index, 1)` starts: the index in range, counted from the end when negative, clamped to the list |
| EmbedTool.RemoveField | discordTools/EmbedTool.tsx:32-36 | an index in range removes that field; a negative index counts from the end; one before the start removes the first field; an index past the end changes nothing |
| EmbedTool.RemoveFieldKeepsOthers | discordTools/EmbedTool.tsx:32-36 | removing a field keeps every other field in order, one shorter |
| EmbedTool.ApplyFieldEdit | discordTools/EmbedTool.tsx:40 | the edited key of the field changes and the other two stay |
| EmbedTool.UpdateField | discordTools/EmbedTool.tsx:38-42 | only the field at the index changes, by the edit |
| EmbedTool.ClearedEmbedIsBlank | discordTools/EmbedTool.tsx:61-74 | Clear leaves no fields, empty texts, the default colour and no timestamp |
| EmbedTool.NormalizeField | discordTools/EmbedTool.tsx:125-131 | non-string name and value become "", and `inline` is the truthiness of the value |
| EmbedTool.NormalizeFields | discordTools/EmbedTool.tsx:122-134 | the object entries, normalised, in order, cut to 25 |
| EmbedTool.NormalizeAuthor | discordTools/EmbedTool.tsx:93-103 | an object's name or "", its url and icon_url when strings; otherwise an author with an empty name |
| EmbedTool.NormalizeFooter | discordTools/EmbedTool.tsx:104-113 | an object's text or "", its icon_url when a string; otherwise an empty footer |
| EmbedTool.NormalizeMedia | discordTools/EmbedTool.tsx:114-121 | the object's url when it is a string, otherwise "" |
| EmbedTool.Candidate | discordTools/EmbedTool.tsx:80-83 | `embeds[0]` when `embeds` is a non-empty array, and the input itself in every other case |
| EmbedTool.Normalize | discordTools/EmbedTool.tsx:76-136 | null exactly when the input or the element it reads is not an object; otherwise every key is filled from it, with defaults for missing or mistyped values, and at most 25 fields |
| EmbedTool.FieldsToJson | discordTools/EmbedTool.tsx:49-50 | the fields serialise to an array holding one object per field |
| EmbedTool.FieldsRoundTrip | discordTools/EmbedTool.tsx:49-50 | exported fields (at most 25) import back as the same fields |
| EmbedTool.ExportTexts | discordTools/EmbedTool.tsx:49-50 | title, description, url, colour and timestamp read back as exported, absent keys as absent |
| EmbedTool.ExportParts | discordTools/EmbedTool.tsx:49-50 | footer, image, thumbnail and author import back as exported |
| EmbedTool.ExportFields | discordTools/EmbedTool.tsx:49-50 | the exported `fields` key holds the serialised fields |
| EmbedTool.ExportImportRoundTrip | discordTools/EmbedTool.tsx:48-50 | exporting an embed with every key present, then importing the file, gives the same embed |
| EmbedTool.ClearedEmbedRoundTrip | discordTools/EmbedTool.tsx:61-74 | the cleared embed survives export and import |
| EmbedTool.EmbedEditor.constructor | discordTools/EmbedTool.tsx:6-20 | the editor opens on the default embed with no import error |
| EmbedTool.EmbedEditor.Update | discordTools/EmbedTool.tsx:23-25 | the embed becomes its update at the key |
| EmbedTool.EmbedEditor.AddFieldClick | discordTools/EmbedTool.tsx:27-30 | the fields become `AddField` of the old ones, everything else stays, the cap holds |
| EmbedTool.EmbedEditor.RemoveFieldClick | discordTools/EmbedTool.tsx:32-36 | the fields become `RemoveField` of the old ones |
| EmbedTool.EmbedEditor.UpdateFieldEdit | discordTools/EmbedTool.tsx:38-42 | the fields become `UpdateField` of the old ones |
| EmbedTool.EmbedEditor.ToggleTimestamp | discordTools/EmbedTool.tsx:44-46 | the timestamp becomes the clock's ISO text when enabled and absent when not |
| EmbedTool.EmbedEditor.Clear | discordTools/EmbedTool.tsx:61-74 | the embed becomes the cleared embed |
| EmbedTool.EmbedEditor.ImportJson | discordTools/EmbedTool.tsx:138-153 | a file that normalises replaces the embed and clears the error; anything else leaves the embed and sets the error text |
| TextTransformTool.ToMocking | discordTools/TextTransformTool.tsx:14-18 | same length; even positions lower-cased, odd positions upper-cased |
| TextTransformTool.MockingIdempotent | discordTools/TextTransformTool.tsx:14-18 | mocking mocked text changes nothing |
| TextTransformTool.MockingKeepsLetters | discordTools/TextTransformTool.tsx:14-18 | mocking changes only letter case |
| TextTransformTool.RegionalPiece | discordTools/TextTransformTool.tsx:24-27 | a letter becomes `:regional_indicator_<c>:`, a space three spaces, anything else itself |
| TextTransformTool.RegionalOne | discordTools/TextTransformTool.tsx:20-29 | a one-character input of either case gives its indicator, a space, or the character |
| TextTransformTool.RegionalAppend | discordTools/TextTransformTool.tsx:20-29 | the output for two texts is the two outputs joined by one space |
| TextTransformTool.SmallCapKeepsNonLetters | discordTools/TextTransformTool.tsx:4-8 | the table leaves anything but a lower-case letter alone |
| TextTransformTool.ToSmallCaps | discordTools/TextTransformTool.tsx:31-36 | character by character: each lower-cased input character through the small-caps table, same length |
| TextTransformTool.SmallCapsTable | discordTools/TextTransformTool.tsx:4-8 | non-letters keep their place, and the only ASCII letters left are `s` and `x` |
| TextTransformTool.ToLeet | discordTools/TextTransformTool.tsx:46-51 | character by character: each lower-cased input character through the leet table, same length |
| TextTransformTool.LeetTable | discordTools/TextTransformTool.tsx:10-12 | non-letters keep their place, and no upper-case letter and no table letter is left |
| TextTransformTool.Capitalize | discordTools/TextTransformTool.tsx:42 | same length; the first character upper-cased and the rest unchanged |
| TextTransformTool.CapAll | discordTools/TextTransformTool.tsx:42 | each word capitalised, in place |
| TextTransformTool.JoinPiecesPadded | discordTools/TextTransformTool.tsx:41-43 | joining all the split pieces gives the joined words with only whitespace around them |
| TextTransformTool.JoinTitleWords | discordTools/TextTransformTool.tsx:43 | title words joined by spaces are trimmed, single-spaced and capitalised word by word |
| TextTransformTool.TitleCaseWords | discordTools/TextTransformTool.tsx:38-44 | title case is the input's words, lower-cased and capitalised, joined by single spaces |
| TextTransformTool.TitleCaseShape | discordTools/TextTransformTool.tsx:38-44 | the output is trimmed, single-spaced, with each word starting upper-case and continuing lower-case |
| TextTransformTool.CaseBase | discordTools/TextTransformTool.tsx:55-57 | after trim, lower-case and the character filter, only word characters, whitespace and `-` remain, none upper-case |
| TextTransformTool.CaseBaseKeeps | discordTools/TextTransformTool.tsx:55-57 | text of lower-case letters, digits and the separator passes through unchanged |
| TextTransformTool.ToSnakeCase | discordTools/TextTransformTool.tsx:53-58 | the output has only lower-case letters, digits and `_` |
| TextTransformTool.SnakeCaseIdempotent | discordTools/TextTransformTool.tsx:53-58 | snake case of snake-case text changes nothing |
| TextTransformTool.ToKebabCase | discordTools/TextTransformTool.tsx:60-65 | the output has only lower-case letters, digits and `-`, and no whitespace or `_` |
| TextTransformTool.KebabCaseIdempotent | discordTools/TextTransformTool.tsx:60-65 | kebab case of kebab-case text changes nothing |
| TextTransformTool.ReverseText | discordTools/TextTransformTool.tsx:79 | same length; position i holds the character at the mirrored position |
| TextTransformTool.ReverseTwice | discordTools/TextTransformTool.tsx:79 | reversing twice gives the input back |
| TextTransformTool.CopyText | discordTools/TextTransformTool.tsx:87-88 | empty text is not copied; anything else is copied as it is |
| Chars.UpperString | discordTools/TextTransformTool.tsx:76 | same length; each character upper-cased |
| Chars.LowerString | discordTools/TextTransformTool.tsx:77 | same length; each character lower-cased |
| Chars.LowerStringIdempotent | discordTools/TextTransformTool.tsx:77 | lower-casing leaves no upper-case letter, and again changes nothing |
| JsText.TrimIsSlice | discordTools/TextTransformTool.tsx:55 | `trim` keeps a slice of the input with only whitespace cut on each side |
| JsText.TrimIdempotent | discordTools/TextTransformTool.tsx:55 | trimming twice is trimming once |
| JsText.TrimStart | discordTools/ColorTool.tsx:10 | the leading whitespace `parseInt` skips: the result is a suffix, only whitespace is cut, and it does not start with whitespace |
| JsText.Trim | discordTools/TextTransformTool.tsx:44 | `trim` leaves no whitespace at either end |
| JsText.Words | discordTools/TextTransformTool.tsx:41-43 | the non-empty pieces of the split, none containing whitespace |
| JsText.SplitWs | discordTools/TextTransformTool.tsx:41 | `split(/\s+/)` gives at least one piece, none containing whitespace |
| JsText.ReplaceRuns | discordTools/TextTransformTool.tsx:58 | each character of the result is the replacement or an input character outside the pattern; never longer than the input |
| JsText.KeepOnly | discordTools/TextTransformTool.tsx:57 | a subsequence of the input holding every kept character as often as in the input and no other; text where all are kept is unchanged |
| JsText.ReplaceRunsSplit | discordTools/TextTransformTool.tsx:58 | a maximal run of pattern characters between two non-pattern parts becomes one replacement character, each side replaced on its own |
| JsText.SplitWsNone | discordTools/TextTransformTool.tsx:41 | text without whitespace splits into itself alone |
| JsText.SplitWsSplit | discordTools/TextTransformTool.tsx:41 | a whitespace run after a whitespace-free head splits off that head, and the rest is split on its own |
| JsText.WordsSplit | discordTools/TextTransformTool.tsx:41-43 | the same for the non-empty pieces, with an empty head dropped |
| JsText.WordsConcat | discordTools/TextTransformTool.tsx:41-43 | the words joined back together are exactly the input's non-whitespace characters, in order |
| ChannelDecoratorTool.Sanitize | discordTools/ChannelDecoratorTool.tsx:10-15 | only characters of `[a-z0-9\-_]` remain |
| ChannelDecoratorTool.SanitizeIdempotent | discordTools/ChannelDecoratorTool.tsx:10-15 | a sanitised name is unchanged by sanitising it again |
| ChannelDecoratorTool.PlainFonts | discordTools/ChannelDecoratorTool.tsx:17-32 | Default and Monospace are the sanitised name itself |
| ChannelDecoratorTool.CompactFont | discordTools/ChannelDecoratorTool.tsx:31 | Compact is the sanitised name with every hyphen dropped, and nothing else changed |
| ChannelDecoratorTool.SmallCapsFont | discordTools/ChannelDecoratorTool.tsx:19-29 | Small Caps keeps the length, keeps digits, `-` and `_` in place, and maps each letter through the table |
| ChannelDecoratorTool.Decorated | discordTools/ChannelDecoratorTool.tsx:41 | the prefix followed by the restyled name |
| ChannelDecoratorTool.PickedPrefix | discordTools/ChannelDecoratorTool.tsx:95 | a picked emoji followed by the bar U+FE31 |
| ChannelDecoratorTool.BeforeBar | discordTools/ChannelDecoratorTool.tsx:79 | the longest bar-free prefix, followed by the bar if anything follows |
| ChannelDecoratorTool.PickedLabel | discordTools/ChannelDecoratorTool.tsx:79-95 | a picked emoji's button label is the emoji |
| ChannelDecoratorTool.PrefixesArePicked | discordTools/ChannelDecoratorTool.tsx:5-8 | every ready-made prefix is a bar-free emoji followed by the bar |
| MarkdownTool.FormatsTable | discordTools/MarkdownTool.tsx:8-20 | 11 entries with distinct labels and non-empty snippets |
| MarkdownTool.Appended | discordTools/MarkdownTool.tsx:22-24 | the snippet alone on empty text; otherwise the old text is a prefix, the snippet a suffix, and the length grows by the snippet's length plus one |
| MarkdownTool.AppendedShape | discordTools/MarkdownTool.tsx:23 | on non-empty text: the old text, one newline, the snippet |
| MarkdownTool.ApplyAllFromEmpty | discordTools/MarkdownTool.tsx:22-24 | from an empty buffer, snippets end up one per line when the first is not empty |
| MarkdownTool.ApplyAllOnto | discordTools/MarkdownTool.tsx:22-24 | from non-empty text, each snippet goes on its own new line |
| MarkdownTool.MarkdownEditor.constructor | discordTools/MarkdownTool.tsx:5 | the buffer starts empty |
| MarkdownTool.MarkdownEditor.SetText | discordTools/MarkdownTool.tsx:56 | typing replaces the buffer |
| MarkdownTool.MarkdownEditor.ApplyFormat | discordTools/MarkdownTool.tsx:22-24 | the buffer becomes `Appended` of the old buffer and the snippet |
| MarkdownTool.MarkdownEditor.Clear | discordTools/MarkdownTool.tsx:46 | the buffer is empty |
| MarkdownTool.MarkdownEditor.CopyText | discordTools/MarkdownTool.tsx:26-28 | nothing is copied from an empty buffer; otherwise the buffer is copied |
| ColorTool.HexDigitValue | discordTools/ColorTool.tsx:10 | a hex digit's value: the decimal value for 0-9, 10-15 for a-f and for A-F |
| ColorTool.RemoveFirst | discordTools/ColorTool.tsx:9 | text without `#` is unchanged; otherwise exactly one character goes |
| ColorTool.RemoveFirstAt | discordTools/ColorTool.tsx:9 | the character removed is the first `#` |
| ColorTool.AfterSign | discordTools/ColorTool.tsx:10 | one leading `-` or `+` is dropped, and nothing else |
| ColorTool.AfterPrefix | discordTools/ColorTool.tsx:10 | a leading `0x` or `0X` is dropped, and nothing else |
| ColorTool.LeadingHex | discordTools/ColorTool.tsx:10 | NaN exactly when the text does not start with a hex digit |
| ColorTool.ParseShape | discordTools/ColorTool.tsx:10 | text made of an optional sign, an optional `0x`/`0X`, a run of hex digits and a rest that does not continue the run parses to the run's value, negated after `-` |
| ColorTool.ParseLongestRun | discordTools/ColorTool.tsx:10 | a hex-digit run followed by something that is not a hex digit parses as the run |
| ColorTool.ParseHexDigits | discordTools/ColorTool.tsx:10 | a string of hex digits parses as its value |
| ColorTool.ParseSkipsSpace | discordTools/ColorTool.tsx:10 | leading whitespace is skipped |
| ColorTool.ParseRejects | discordTools/ColorTool.tsx:10 | text starting with anything but whitespace, a sign or a hex digit is NaN |
| ColorTool.ParseSigned | discordTools/ColorTool.tsx:10 | a minus sign negates, a plus sign is dropped |
| ColorTool.ParseHexPrefix | discordTools/ColorTool.tsx:10 | `0x` or `0X` before digits is skipped, and the prefix alone is NaN |
| ColorTool.HexToIntOfColor | discordTools/ColorTool.tsx:8-11 | `#` followed by hex digits gives their value |
| ColorTool.HexToIntNoHash | discordTools/ColorTool.tsx:8-11 | text without `#` is parsed as it is |
| ColorTool.HexToIntDoubleHash | discordTools/ColorTool.tsx:8-11 | a second `#` stays, so `##…` is NaN |
| ColorTool.ColorValue | discordTools/ColorTool.tsx:8-11 | `#rrggbb` converts to the number its six digits denote |
| ColorTool.BlurpleValue | discordTools/ColorTool.tsx:20 | #5865F2 is 5793266 |
| ColorTool.GreenValue | discordTools/ColorTool.tsx:21 | #57F287 is 5763719 |
| ColorTool.YellowValue | discordTools/ColorTool.tsx:22 | #FEE75C is 16705372 |
| ColorTool.FuchsiaValue | discordTools/ColorTool.tsx:23 | #EB459E is 15418782 |
| ColorTool.RedValue | discordTools/ColorTool.tsx:24 | #ED4245 is 15548997 |
| ColorTool.BlackValue | discordTools/ColorTool.tsx:25 | #23272A is 2303786 |
| ColorTool.PaletteValid | discordTools/ColorTool.tsx:19-26 | every swatch converts to a number |
| ColorTool.DecimalText | discordTools/ColorTool.tsx:65-67 | `toString` of an integer: digits denoting it, after a `-` when negative |
| ColorTool.DisplayText | discordTools/ColorTool.tsx:28-65 | "Invalid Hex" exactly for NaN, otherwise the decimal text |
| ColorTool.CopyText | discordTools/ColorTool.tsx:67-68 | copying is disabled exactly on NaN, and otherwise copies what the panel shows |
| ColorTool.ClickSwatch | discordTools/ColorTool.tsx:85 | clicking a swatch sets its hex, which then shows as a number |
| App.ParseTool | App.tsx:70-72 | a recognised tool's URL value is the text itself |
| App.ParseToolValue | discordTools/types.ts:1-15 | each tool's URL value is recognised as that tool |
| App.ParseToolIff | App.tsx:79-81 | recognition succeeds with tool t exactly on t's URL value |
| App.LabelsDistinct | App.tsx:89-107 | every tool has a non-empty label, and no two share one |
| App.InitialCollectionCases | App.tsx:65-75 | `suite` when it is discord or whatsapp; else Discord when `tool` names a tool; home exactly when neither holds |
| App.InitialTool | App.tsx:77-82 | the tool named by `tool`, else Timestamp |
| App.InitialTheme | App.tsx:84-87 | light exactly when the stored value is `light` |
| App.ToggleTheme | App.tsx:276 | the theme button always changes the theme |
| App.ToggleTwice | App.tsx:276 | two clicks restore the theme |
| App.ThemeStored | App.tsx:84-87 | the theme written to storage is the one read back on the next visit |
| App.ToolIndex | App.tsx:117-131 | every tool has an entry in the sidebar table |
| App.ToolsOnce | App.tsx:117-131 | the table lists each of the 13 tools once |
| App.VisibleTools | App.tsx:133-137 | every tool for a blank query, otherwise the tools whose lower-cased label contains it |
| App.VisibleToolsMatch | App.tsx:133-137 | a non-empty query shows exactly the matching tools, in table order |
| App.VisibleFindsTool | App.tsx:133-137 | typing the start of a label keeps that tool in the sidebar |
| App.Searchables | App.tsx:139-145 | each table entry with its label and section, in order |
| App.HomeSearchResults | App.tsx:147-154 | nothing for a blank query |
| App.HomeSearchMatch | App.tsx:147-154 | for a non-empty query, the results are exactly the tools matching by label or by section name |
| App.SidebarHitIsHomeHit | App.tsx:133-154 | whatever the sidebar search finds, the home search finds too |
| App.SectionGroups | App.tsx:157-169 | one group per section, in the order discovery, creativity, utilities |
| App.GroupsItems | App.tsx:164-170 | each group is non-empty and holds exactly its section's visible tools, in order |
| App.GroupsOrdered | App.tsx:157-170 | groups come in section order |
| App.GroupsCover | App.tsx:164-170 | every visible tool is in the group of its section |
| App.SyncKeepsOthers | App.tsx:173-189 | parameters other than `suite` and `tool` are left alone |
| App.SyncHome | App.tsx:176-178 | on home, `suite` and `tool` are removed |
| App.SyncDiscord | App.tsx:179-181 | on Discord, `suite` is discord and `tool` is the active tool |
| App.SyncWhatsApp | App.tsx:182-184 | on WhatsApp, `suite` is whatsapp and `tool` is removed |
| App.SyncRoundTrip | App.tsx:173-189 | reloading the synced URL opens the same collection, and on Discord the same tool |
| App.Shell.constructor | App.tsx:110-115 | collection and tool from the URL, theme from storage, empty searches |
| App.Shell.SyncUrl | App.tsx:173-189 | the parameters become their synced form, and nothing else changes |
| App.Shell.OpenCollection | App.tsx:267 | only the collection changes |
| App.Shell.PickSearchResult | App.tsx:338-342 | Discord opens on the chosen tool and the home search is cleared |
| App.Shell.PickSidebarTool | App.tsx:559-562 | only the active tool changes |
| App.Shell.SetSearch | App.tsx:538 | only the sidebar search changes |
| App.Shell.SetHomeSearch | App.tsx:321 | only the home search changes |
| App.Shell.FlipTheme | App.tsx:276 | the theme flips, and nothing else changes |
| UrlParams.Get | App.tsx:67 | `get`: the value of the first pair with the name, absent when there is none |
| UrlParams.Delete | App.tsx:177-178 | `delete`: every pair with the name goes, the rest stays in order |
| UrlParams.Set | App.tsx:180-181 | `set`: exactly one pair with the name and the new value; other names untouched; appended when there was none |
| UrlParams.SetAt | App.tsx:180-181 | when a pair with the name exists, the new pair takes the place of the first one and later pairs with the name go |

## Left out

- `JSON.parse`, reading an imported file, and the `fetch` calls (`resolveFromId`, `downloadImage`): parsed JSON enters as a parameter; a failed parse is `None`; a started lookup is the result of `AutoResolve`.
- The clipboard, the "copied" flags and their timers, `localStorage`, `history.replaceState`, the DOM download anchors, and rendering: each copy function returns what would be copied; the stored theme and the query string are fields or parameters.
- The clock: `Date.now()` and `new Date().toISOString()` are parameters (`now`, `nowIso`); the ISO creation date in the ID lookup record is left out.
- `Number(...)` is double precision: values above 2^53 lose precision, `toString` switches to exponent form for large values, and `-0` prints as `0`. The model keeps exact integers.
- JavaScript strings are UTF-16 code units; Dafny characters are Unicode scalar values. They differ only for characters outside the Basic Multilingual Plane, such as the emoji prefixes, where `split('')` would split surrogate pairs.
- Case mapping covers ASCII letters only; Unicode letters are left as they are.
- The permission catalog and the Discord epoch come from a constants module that is not part of this model. The catalog is a parameter, and the epoch is the documented 1420070400000.
- Emoji maker, webhook and timestamp tools, the emoji picker library, and the presentational components are not part of this model.
- The shell's `sidebarOpen` flag and window width.
- The shell's `renderTool` is left out: choosing a tool's component is presentation.
- The channel decorator's input, prefix and font state: each is overwritten whole by its handler, so `Decorated` takes all three as parameters.
- EmbedTool.EmbedEditor.UpdateFieldEdit: requires an index inside the list, which is the only index the field editor passes. The source would write past the end of the array.
- EmbedTool.EmbedEditor.Update: requires a value of the key's type, and at most 25 fields for the fields key. The typed handlers and `addField` guarantee both.
- EmbedTool.RemoveField: `splice` on a fresh copy of the array is modelled as the new sequence it produces. The copy is never shared, so no aliasing is lost.
- ColorTool.ParseLongestRun: requires that the text does not start with `0x` or `0X`, because there the prefix rule applies instead (see `ParseHexPrefix`).
- ColorTool.RemoveFirst: its own contract states only the length; which character goes is stated by `RemoveFirstAt`.
- PermissionTool.DoubleToggleRestores: holds only for flags whose bits are all set or all clear, and `DisjointTogglesCommute` only for disjoint flags, because the source's toggle does not restore or commute otherwise.
