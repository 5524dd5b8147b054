# notionable in Dafny

A model of the pure core of **notionable**, a TypeScript library that lets an
application read and write the rows of a Notion database as plain typed
objects. The core is the translation between application records and the
Notion API's page/property shapes, plus a generator that turns a database
schema into a TypeScript type declaration. The repository keeps three
generations of this code. Each generation is its own module here:

| generation | sources | modules |
|---|---|---|
| newest | `notionable/source/*` | `NotionableMapperFromNotion`, `NotionableMapperToNotion`, `NotionableTypeGenerator`, `NotionableHelper` |
| middle | `src/core/*` | `CoreMapperFromNotion`, `CoreMapperToNotion`, `CoreTypeGenerator` |
| oldest | `src/typeGenerator.ts`, `src/Notionable/*` | `LegacyTypeGenerator`, `LegacyTypeToNotionMappers`, `LegacyUtils` |

The generations share some modules:

- `PageMapping` holds the two object-building reductions they all use.
  - Page to item: `{id, ...fields}` under the inverted name mapping.
  - Item to page payload: `{parent, properties}`.
- `TypeNaming` holds the text helpers.
  - Dropping one trailing `s`.
  - The `"\n\t"`-joined declaration bodies and their `.trim()`.
  - The declared-type vocabulary (`TsType`) and its rendering.
- `JsObjects`, `JsStrings` and `JsRuntime` model the JavaScript semantics the
  code relies on.
  - Object spread in a `reduce`: a left fold in which a later key wins.
  - lodash `invert`.
  - `String.prototype.trim` with the ECMAScript whitespace set.
  - `toLowerCase`, string `reduce` with `+`, and dynamic values.
- `NotionApi` holds the Notion data shapes: pages, property values, database
  schemas and write payloads.
- `Wrappers` holds `Option` and `Result`.

Everything is pure: functions over datatypes, sequences and maps, with lemmas.
A `throw` becomes a `Failure` of `Result`. The errors are:
- an unsupported or read-only kind;
- a property missing from the schema, where reading `.type` of `undefined` throws;
- a non-array given to a multi_select;
- a nullish date, or a date whose `start` is not a `Date`;
- a database title without a text fragment.

lodash `camelCase`, `upperFirst` and `lowerCase` and `Date.prototype.toDateString`
are parameters: any function of the right type.

## Model

| member | source | states |
|---|---|---|
| NotionableMapperFromNotion.MapNotionPageToItemFields | notionable/source/MapperFromNotion.ts:11-26 | Assume an injective mapping that names every page property. Then the item's keys are exactly `id` plus the application names of the page's properties. Each name holds that property's decoded value. `id` is `page.id` unless some application name is "id". |
| NotionableMapperFromNotion.TextDecodesInOrder | notionable/source/MapperFromNotion.ts:96-103 | Title and rich text decode to the same string. That string is the in-order concatenation of the fragments' plain text. Its length is the sum of their lengths, and each fragment sits at its offset. No fragments give "". |
| NotionableMapperFromNotion.OptionNames | notionable/source/MapperFromNotion.ts:43-44 | multi_select decodes to the option names, with the same length and order. |
| NotionableMapperFromNotion.RelationIds | notionable/source/MapperFromNotion.ts:50-52 | relation decodes to the referenced page ids, with the same length and order. |
| NotionableMapperFromNotion.UserIds | notionable/source/MapperFromNotion.ts:54-55 | people decodes to the user ids, with the same length and order. |
| NotionableMapperFromNotion.ListKindsPreserveOrder | notionable/source/MapperFromNotion.ts:43-88 | Through the full decoder, every list kind keeps length and order. This covers multi_select, relation, people, files and rollup arrays, and a rollup array is decoded element by element with the same decoder. |
| NotionableMapperFromNotion.GetDateValueFromNotion | notionable/source/MapperFromNotion.ts:106-117 | A null date gives null. Otherwise the result is an object that always has `start`. It has `end` exactly when the API's `end` is a non-empty string, and holds no other keys. |
| NotionableMapperFromNotion.GetFileValueFromNotion | notionable/source/MapperFromNotion.ts:120-128 | Each file gives one `{name, url}` object, in order. `url` is the `{url}` object of the external link when there is one, and undefined exactly when there is none. |
| NotionableMapperFromNotion.FormulaDecodesLikeProperty | notionable/source/MapperFromNotion.ts:131-147 | A formula decodes like the property of its own result type. A boolean decodes like a checkbox and a date like a date property. A number decodes like a number property, and a string like a url, e-mail or phone number. The result is undefined exactly when the formula type is not one the switch lists. |
| NotionableMapperFromNotion.GetTypedValuesFromNotion | notionable/source/MapperFromNotion.ts:153-155 | A rollup array maps every element through the same decoder, keeping length and order. Termination is by structural recursion on the value. |
| NotionableMapperFromNotion.RollupDateDecodesLikeDate | notionable/source/MapperFromNotion.ts:160-161 | An absent rollup date stays null. A present one decodes exactly like a date property. |
| NotionableMapperFromNotion.UndefinedOnlyForUnknownSubTags | notionable/source/MapperFromNotion.ts:29-93 | The decoder gives undefined exactly for a formula or rollup whose sub-tag its switch does not list. Every other value, including an unknown tag, decodes to something defined. |
| NotionableMapperFromNotion.UnknownTagGivesSentinel | notionable/source/MapperFromNotion.ts:90-91 | A tag that is none of the nineteen the switch lists decodes to the string 'unknown value type'. |
| NotionableMapperToNotion.KindChosenBySchema | notionable/source/MapperToNotion.ts:43-78 | A successful payload has the kind the schema declares. An error for an unsupported or read-only kind happens exactly when the declared kind is outside the ten writable ones. A property missing from the schema fails exactly with an unknown-property error. |
| NotionableMapperToNotion.KindIndependentOfInput | notionable/source/MapperToNotion.ts:43-45 | Two input values for the same property give payloads of the same kind. |
| NotionableMapperToNotion.PayloadCarriesInput | notionable/source/MapperToNotion.ts:82-181 | Title and rich text give a one-element list whose content is the input, and only the title element has type 'text'. Number, checkbox, url, email and phone number carry the input unchanged, and select wraps it as the option name. |
| NotionableMapperToNotion.GetNotionMultiSelectProperty | notionable/source/MapperToNotion.ts:156-163 | The builder succeeds exactly for an array, giving one name per element in order. Any other input fails with a not-an-array error. |
| NotionableMapperToNotion.GetNotionDateProperty | notionable/source/MapperToNotion.ts:119-129 | A nullish input throws exactly as reading `.start` of it does. A `Date` start gives `start` and `end` both equal to its `toDateString()`. A missing, null or undefined start, or a primitive input, gives `start` "" and no `end`. Any other start fails, as calling `toDateString` on it does. Every success has `end` equal to `start`, or `start` "" and no `end`. |
| NotionableMapperToNotion.DateEndCopiesStart | notionable/source/MapperToNotion.ts:122-123 | As written, `end` is taken from the input's `start`: the input's own `end` is ignored. An input without `start` gives `start` "" and no `end`. |
| NotionableMapperToNotion.MapItemToNotionPageShape | notionable/source/MapperToNotion.ts:10-30 | The mapping succeeds exactly when every entry's builder does, so one unwritable kind fails it. On success `parent.database_id` is the database id and the keys are exactly the mapping's property names. A name that no later entry reuses holds the payload built from `input[typeName]`, of the schema's kind. |
| PageMapping.ItemFromPageShape | notionable/source/MapperFromNotion.ts:17-24 | For any mapping, the item's keys are `id` plus each page property's inverted key ("undefined" for an unmapped one). `id` is `page.id` unless a key is "id". A key that no later property reuses holds that property's decoded value. |
| PageMapping.ItemKeys | notionable/source/MapperFromNotion.ts:19-24 | The item's keys are `id` plus the key of every page property. |
| PageMapping.ItemField | notionable/source/MapperFromNotion.ts:22 | A property whose key no later property reuses has its decoded value in the item. |
| PageMapping.ItemId | notionable/source/MapperFromNotion.ts:18-19 | `id` is `page.id` when no property's key is "id", because the fields are spread after it. |
| PageMapping.InjectiveFieldKey | notionable/source/MapperFromNotion.ts:15 | Under an injective mapping, a property name inverts to the one application name that names it. |
| PageMapping.InjectiveFieldKeysDistinct | notionable/source/MapperFromNotion.ts:15-22 | Under an injective mapping, distinct page properties get distinct keys. |
| PageMapping.InjectiveItemValues | notionable/source/MapperFromNotion.ts:15-24 | Under an injective mapping, each application name holds the decoded value of the property it names. |
| PageMapping.InjectiveItemKeys | notionable/source/MapperFromNotion.ts:15-24 | Under an injective mapping, the item's keys are exactly `id` plus the application names of the page's properties. |
| PageMapping.InjectiveItemId | notionable/source/MapperFromNotion.ts:17-18 | Under an injective mapping with no application name "id", `id` is `page.id`. |
| PageMapping.ItemFromInjectiveMapping | notionable/source/MapperFromNotion.ts:15-24 | This combines the four injective-mapping facts above: distinct keys, values, the key set and `id`. |
| PageMapping.BuildEntries | notionable/source/MapperToNotion.ts:17-28 | The payload entries exist exactly when every builder succeeds, and then there is one per mapping entry, in order. Otherwise the error is that of an entry whose builder throws. |
| PageMapping.PageFromItemShape | notionable/source/MapperToNotion.ts:15-29 | For any builder, the payload exists exactly when every builder succeeds. On success the parent is the database and the keys are the mapping's property names. A name no later entry reuses holds its builder's payload. Otherwise the first failing entry's error is returned. |
| NotionableTypeGenerator.PropertiesMapShape | notionable/source/TypeGenerator.ts:34-43 | The map's keys are the camelCased schema keys. Every value is a schema key whose camelCase is its own key. On a collision the later key wins. |
| NotionableTypeGenerator.EntryPropertyType | notionable/source/TypeGenerator.ts:61-110 | The newest type table, one iff per declared type. `string` is for title, rich_text, email, select, url, phone_number, created_by, last_edited_by and any unlisted kind. `boolean` is for checkbox and `Date` for the two timestamps. The date kind gets `{start, end?}`, `number` is for number, and `string[]` is for relation, multi_select and people. files, formula and rollup each get their own union type. |
| NotionableTypeGenerator.DeclaredTypeDescribesDecodedValue | notionable/source/TypeGenerator.ts:61-110 | For text, checkbox, user, timestamp and id-list kinds, the decoded value has the declared type. |
| NotionableTypeGenerator.DeclaredTypeMissesSelectAndFiles | notionable/source/TypeGenerator.ts:65-98 | A select is declared `string` but decodes to the option object. A file's `url` is declared a string but decodes to the `{url}` object. |
| NotionableTypeGenerator.GetPropertyKey | notionable/source/TypeGenerator.ts:135-142 | The key is never empty and never starts with a digit. An empty camelCase of the ASCII-only name gives `'<id>'`. A camelCase starting with a digit is quoted, and any other camelCase is the key itself. |
| NotionableTypeGenerator.StripAllNonAscii | notionable/source/TypeGenerator.ts:136 | A name made only of non-ASCII characters strips to "". |
| NotionableTypeGenerator.PropertyKeyIgnoresNonAscii | notionable/source/TypeGenerator.ts:136 | Inserting non-ASCII characters anywhere in a property name does not change its key. |
| NotionableTypeGenerator.PluralTitleNamesSingular | notionable/source/TypeGenerator.ts:126-133 | A title whose normalised name is `<stem>s` gives the type name `<stem>`. This holds even when `<stem>` ends in `s`. |
| NotionableTypeGenerator.GenerateTypeFromNotionDatabase | notionable/source/TypeGenerator.ts:45-55 | The declaration exists only when the type name does. It starts with `export type <Name>Type = {` and ends with `}`. |
| NotionableTypeGenerator.DeclarationFromReduction | notionable/source/TypeGenerator.ts:48-54 | The declaration exists exactly when the type name does. It is the header, then the reduction from '\n\tid: string', then `\n}`, and `trim` removes nothing. |
| NotionableTypeGenerator.DeclarationShape | notionable/source/TypeGenerator.ts:45-55 | The declaration is `export type <Name>Type = {`, then `id: string`, then one `"\n\t"`-prefixed `<key>: <type>` line per property in schema order, then `\n}`. |
| NotionableTypeGenerator.GenerateTypeFiles | notionable/source/TypeGenerator.ts:9-32 | It fails exactly when the type name does. On success it writes one file named `<typeName>.type.ts` holding the declaration, and returns that type name. |
| NotionableHelper.ApplyQuery | notionable/source/Helper.ts:5-13 | The keys are the query's keys plus `database_id`. Every query field is kept, with the query spread last. `database_id` is the given id unless the query sets it. With no query the result is only `{database_id}`. |
| NotionableHelper.GetDbTitle | notionable/source/Helper.ts:15-23 | It succeeds exactly when the title has a fragment of type 'text'. The result is `lowerCase` of the trimmed plain text of the first such fragment. |
| NotionApi.FirstTextFragment | notionable/source/Helper.ts:16 | The result is the index of the first 'text' fragment, or none exactly when there is no such fragment. |
| JsObjects.AssignKeys | notionable/source/MapperToNotion.ts:19-22 | Spreading entries one by one gives an object with exactly the entries' keys. |
| JsObjects.AssignLastWins | notionable/source/MapperToNotion.ts:19-22 | An entry whose key no later entry repeats keeps its value. |
| JsObjects.AssignValueFromEntry | notionable/source/TypeGenerator.ts:36-41 | Every value of the object comes from an entry with that key. |
| JsObjects.AssignDistinct | notionable/source/MapperToNotion.ts:19-22 | With distinct keys, every entry's value is kept. |
| JsObjects.InvertKeys | notionable/source/MapperFromNotion.ts:15 | The keys of `invert(m)` are the values of `m`. |
| JsObjects.InvertInjective | notionable/source/MapperFromNotion.ts:15 | For an injective `m`, `invert(m)` maps each value back to its own key. |
| JsObjects.InvertIsInjective | notionable/source/MapperFromNotion.ts:15 | For `m` with distinct keys, `invert(m)` maps distinct values to distinct keys. |
| JsStrings.Trim | notionable/source/Helper.ts:19 | A non-empty result neither starts nor ends with whitespace. |
| JsStrings.TrimStart | notionable/source/Helper.ts:19 | The result is a suffix of the input, and everything dropped is whitespace. A non-empty result does not start with whitespace. |
| JsStrings.TrimEnd | notionable/source/Helper.ts:19 | The result is a prefix of the input, and everything dropped is whitespace. A non-empty result does not end with whitespace. |
| JsStrings.TrimUnchanged | src/core/TypeGenerator.ts:52 | Text that neither starts nor ends with whitespace is unchanged by `trim`. |
| JsStrings.TrimIgnoresPadding | src/Notionable/Utils.ts:7 | Whitespace added on either side does not change the trimmed text. |
| JsStrings.LowerCaseLetters | src/Notionable/Utils.ts:7 | Lower-casing keeps the length and leaves no upper-case letter. Each upper-case letter becomes its lower-case partner and every other character is kept. |
| JsStrings.TrimToLowerCommute | src/Notionable/Utils.ts:7 | Trimming and lower-casing commute. |
| JsStrings.ReduceConcatIsConcat | notionable/source/MapperFromNotion.ts:97 | The left `reduce` with `+` equals the start value followed by the concatenation of the parts. |
| JsStrings.ConcatLength | notionable/source/MapperFromNotion.ts:97 | The concatenation is as long as all parts together. |
| JsStrings.PartAt | notionable/source/MapperFromNotion.ts:97 | Each part occurs in the concatenation at its offset. |
| JsStrings.StripNonAscii | notionable/source/TypeGenerator.ts:136 | The stripped text is at most as long as the input and contains only characters up to 0x7F. |
| JsStrings.StripNonAsciiAppend | notionable/source/TypeGenerator.ts:136 | Stripping distributes over concatenation. |
| JsStrings.StripNonAsciiKeepsAscii | notionable/source/TypeGenerator.ts:136 | ASCII-only text is unchanged by stripping. |
| TypeNaming.DropTrailingS | notionable/source/TypeGenerator.ts:130-132 | The result is a prefix of the name that is one character shorter exactly when the name ends in `s`. |
| TypeNaming.DropsExactlyOneS | src/Notionable/Utils.ts:14-16 | Only one trailing `s` goes: `<stem>s` becomes `<stem>`. |
| TypeNaming.KeepsOtherNames | src/core/TypeGenerator.ts:101-103 | A name not ending in `s` is kept as it is. |
| TypeNaming.JoinFromFirstLine | notionable/source/TypeGenerator.ts:50-53 | Reducing from `"\n\t" + first` equals joining with `first` as the first line. |
| TypeNaming.IdLineFirst | src/core/TypeGenerator.ts:48-51 | Reducing from '\n\tid: string' puts the `id: string` line before every property line. |
| TypeNaming.JoinFromPrefix | src/core/TypeGenerator.ts:48-51 | A reduction that starts from some text equals that text followed by the reduction that starts from ''. |
| TypeNaming.JoinFromEmpty | src/typeGenerator.ts:71-74 | Reducing from '' gives just the separated lines. |
| TypeNaming.TrimmedDeclaration | src/core/TypeGenerator.ts:46-52 | `.trim()` leaves a declaration that starts with a letter and ends with `}` unchanged. So the text starts with its opening line and ends with `}`. |
| CoreMapperFromNotion.DecodesTextOnly | src/core/MapperFromNotion.ts:23-41 | Only title and rich text decode to something defined, namely the in-order join of their plain text, the same as the newest decoder. Every other kind gives undefined. |
| CoreMapperFromNotion.MapNotionPageToItemFields | src/core/MapperFromNotion.ts:5-20 | Assume an injective mapping that names every page property. The keys are `id` plus the page properties' application names. A name holds undefined exactly when its property is not text, and a title holds its joined text. `id` is `page.id` unless a name is "id". |
| CoreMapperToNotion.PropertyPayloadByKind | src/core/MapperToNotion.ts:32-88 | It fails exactly for a property missing from the schema. A title gives a one-element title list and a number the bare value. Every other kind falls back to a one-element rich-text list. Each carries the input. |
| CoreMapperToNotion.MapItemToNotionPageShape | src/core/MapperToNotion.ts:4-24 | The mapping succeeds exactly when the schema declares every property it names. On success the parent is the database and the keys are the mapping's property names. Each name holds the payload built from `input[typeName]`. |
| CoreTypeGenerator.PropertiesMapShape | src/core/TypeGenerator.ts:32-41 | The map's keys are the camelCased schema keys. Each value is a schema key with that camelCase, and the later key wins a collision. |
| CoreTypeGenerator.EntryPropertyType | src/core/TypeGenerator.ts:56-83 | Only `string`, `boolean`, `Date` and `number` occur. `boolean` is exactly checkbox and `number` exactly number. `Date` is exactly created_by, created_time, last_edited_time and date. |
| CoreTypeGenerator.TableAgreesWithNewest | src/core/TypeGenerator.ts:59-83 | On title, rich_text, email, checkbox, number and the two timestamps, this table and the newest agree. |
| CoreTypeGenerator.TableDisagreesWithNewest | src/core/TypeGenerator.ts:59-83 | On created_by, date, the list kinds, files, formula and rollup, the two tables differ. |
| CoreTypeGenerator.GenerateTypeFromNotionDatabase | src/core/TypeGenerator.ts:43-53 | The declaration starts with `export type <Name>Type = {` and ends with `}`. |
| CoreTypeGenerator.DeclarationShape | src/core/TypeGenerator.ts:43-53 | The declaration is the header, then `id: string`, then one `"\n\t"`-prefixed line per property in order, then `\n}`. |
| CoreTypeGenerator.GeneratedFileText | src/core/TypeGenerator.ts:8-30 | It returns the type name and writes exactly one file, `<typeName>.type.ts`. The file holds the header, the `id: string` line, one `"\n\t"`-prefixed line per property in schema order, and the closing brace. |
| LegacyUtils.CompareTextIsEquivalence | src/Notionable/Utils.ts:6-8 | `compareText` is reflexive, symmetric and transitive. |
| LegacyUtils.CompareTextIgnoresPaddingAndCase | src/Notionable/Utils.ts:7 | Whitespace around a text does not change any comparison. A text matches its own lower-cased form. |
| LegacyUtils.CompareTextNeedsSameLength | src/Notionable/Utils.ts:7 | Texts whose trimmed lengths differ never match. |
| LegacyUtils.LowerCaseIdempotent | src/Notionable/Utils.ts:7 | Lower-casing twice is lower-casing once. |
| LegacyUtils.GetDatabaseTitle | src/Notionable/Utils.ts:19-21 | The result is the first 'text' fragment's plain text, or 'unknown' when there is none. |
| LegacyUtils.PluralTitleNamesSingular | src/Notionable/Utils.ts:10-17 | A title whose normalised name is `<stem>s` gives the type name `<stem>`. |
| LegacyUtils.UntitledTypeName | src/core/TypeGenerator.ts:97-108 | A title without text fragments gives the type name of 'unknown'. |
| LegacyUtils.TypeNameFromFirstText | src/core/TypeGenerator.ts:97-99 | The type name depends only on the first text fragment's trimmed text. Padding that text with whitespace, as the whole title, gives the same name. |
| LegacyTypeGenerator.GeneratePropertiesFromType | src/typeGenerator.ts:53-62 | The properties text starts with `export const <Name>Props = {`. |
| LegacyTypeGenerator.PropertiesShape | src/typeGenerator.ts:53-62 | The properties text is the header, then one `"\n\t"`-prefixed line per key in order, then `\n}`. |
| LegacyTypeGenerator.GenerateTypeFromNotionDatabase | src/typeGenerator.ts:65-76 | The declaration starts with `export type <Name>Type = {`. |
| LegacyTypeGenerator.DeclarationShape | src/typeGenerator.ts:65-76 | The declaration is the header, then one `"\n\t"`-prefixed `<key>: <type>` line per property, then `\n}`. It has no `id` line. |
| LegacyTypeGenerator.CoreAddsIdLine | src/typeGenerator.ts:65-76 | The middle generation's declaration is this one with `\n\tid: string` inserted before the property lines. |
| LegacyTypeGenerator.FilesListSameKeys | src/typeGenerator.ts:53-109 | The properties file and the declaration list the same keys in the same order. Line `i` of both starts with the camelCase of the `i`-th schema key. |
| LegacyTypeGenerator.GeneratedFilesText | src/typeGenerator.ts:13-50 | It writes exactly two files, in order. `<typeName>.props.ts` holds one `<camelCase(key)>: '<key>',` line per schema key. `<typeName>.type.ts` holds one `<key>: <type>` line per property. Both are in schema order. |
| LegacyTypeToNotionMappers.MapTypeToNotionShape | src/Notionable/TypeToNotionMappers.ts:10-86 | The mapping succeeds exactly when the schema declares every property it names. On success the parent is the database and the keys are the mapping's property names. A title gets a one-element title list and a number the bare value; every other kind gets a one-element rich-text list. Each carries `inputObject[typeName]`. |

## Left out

- The file system is not modelled: `access`, `rm`, `writeFile`, `path.join`, `console.log` and `async`. The generators are modelled by the file names and texts they write, in writing order. The `typesPath`/`propsPath` values returned by the oldest `generateTypeFiles` are not modelled.
- lodash `camelCase`, `upperFirst` and `lowerCase` are parameters, so no fact about word splitting is proved.
- `Date` is an opaque token and `toDateString` is a parameter. `new Date(s)` is not parsed.
- JavaScript numbers are modelled as `real`: no floating point.
- The output objects are Dafny maps, so the insertion order of their keys is not modelled. The order of the entries that are reduced (page properties, mapping entries, schema keys) is kept as sequences.
- Encoding then decoding is not claimed to give the input back. The decoder reads fields the server fills in (`plain_text`, the whole select object) that the encoder never writes.
- Rich-text annotations, links and mentions are not modelled beyond their kind and plain text.
- The error message of `getDbTitle`'s `throw` is not modelled.
- The SDK-calling modules (`NotionDatabase`, `Notionable`, `NotionWorkspace`, `NotionClient`), `index.ts` and the entity type declarations are not part of this model. The `getDbTitle` copy in `src/core/Notionable.ts` is the same as `notionable/source/Helper.ts` and is modelled there once.
- Both the middle and the oldest encoders throw a `TypeError` for a mapped property the schema lacks, because they read `.type` of `undefined`. The model follows the code: `CoreMapperToNotion.MapItemToNotionPageShape` and `LegacyTypeToNotionMappers.MapTypeToNotionShape` fail exactly in that case.
- `src/core/TypeGenerator.ts` declares `generateTypeName` and `getDatabaseTitle` with the same code as `src/Notionable/Utils.ts`, so both generations use `LegacyUtils`.
- The oldest `getEntryType` (`src/typeGenerator.ts`) has the same table and form as the middle generation's and reuses `CoreTypeGenerator.EntryTypes`.
- JsStrings.ToLowerCase: maps only `A`–`Z`, not JavaScript's full Unicode lower-casing. So `LegacyUtils.CompareTextIgnoresPaddingAndCase` covers ASCII letter case only.
- JsObjects.Invert: lodash `invert` is modelled as "last key wins". The item lemmas that name application fields assume an injective mapping, as the library expects.
