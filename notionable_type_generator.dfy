/**
 * The newest type generator: the camelCase property map, the per-kind type
 * table, sanitised property keys, and the text of the generated
 * `<Name>.type.ts` declaration.
 */
module NotionableTypeGenerator {
  import opened Wrappers
  import opened JsRuntime
  import opened JsStrings
  import JsObjects
  import opened NotionApi
  import opened TypeNaming
  import NotionableHelper
  import Decoder = NotionableMapperFromNotion

  function CamelEntries(props: JsObjects.Entries<PropertySchema>, camelCase: string -> string): (r: JsObjects.Entries<string>)
    ensures |r| == |props|
    ensures forall i :: 0 <= i < |props| ==> r[i] == (camelCase(props[i].0), props[i].0)
  {
    seq(|props|, i requires 0 <= i < |props| => (camelCase(props[i].0), props[i].0))
  }

  /** `getPropertiesMap`: `{[camelCase(key)]: key}` over the schema's keys, a later key winning a camelCase collision. */
  function GetPropertiesMap(db: Database, lodash: Lodash): map<string, string>
  {
    JsObjects.Assign(CamelEntries(db.properties, lodash.camelCase))
  }

  /**
   * The map's keys are the camelCased schema keys; every value is a schema
   * key whose camelCase is its own key; a schema key no later key collides
   * with is the value under its camelCase.
   */
  lemma PropertiesMapShape(db: Database, lodash: Lodash)
    ensures var m := GetPropertiesMap(db, lodash);
            var props := db.properties;
            && m.Keys == (set i | 0 <= i < |props| :: lodash.camelCase(props[i].0))
            && (forall c :: c in m ==> lodash.camelCase(m[c]) == c && m[c] in JsObjects.KeySet(props))
            && (forall i :: 0 <= i < |props| && (forall j :: i < j < |props| ==> lodash.camelCase(props[j].0) != lodash.camelCase(props[i].0))
                  ==> m[lodash.camelCase(props[i].0)] == props[i].0)
  {
    var props := db.properties;
    var e := CamelEntries(props, lodash.camelCase);
    JsObjects.AssignKeys(e);
    assert JsObjects.KeySet(e) == (set i | 0 <= i < |props| :: lodash.camelCase(props[i].0)) by {
      forall c | c in JsObjects.KeySet(e) ensures c in (set i | 0 <= i < |props| :: lodash.camelCase(props[i].0)) {
        var i :| 0 <= i < |e| && e[i].0 == c;
        assert lodash.camelCase(props[i].0) == c;
      }
    }
    forall c | c in JsObjects.Assign(e)
      ensures lodash.camelCase(JsObjects.Assign(e)[c]) == c && JsObjects.Assign(e)[c] in JsObjects.KeySet(props)
    {
      JsObjects.AssignValueFromEntry(e, c);
    }
    forall i | 0 <= i < |props| && (forall j :: i < j < |props| ==> lodash.camelCase(props[j].0) != lodash.camelCase(props[i].0))
      ensures JsObjects.Assign(e)[lodash.camelCase(props[i].0)] == props[i].0
    {
      JsObjects.AssignLastWins(e, i);
    }
  }

  /** The type `getEntryType` declares for each schema kind. */
  function EntryPropertyType(kind: PropertyKind): (r: TsType)
    ensures r == StringType <==>
              kind in {TitleKind, RichTextKind, EmailKind, SelectKind, UrlKind, PhoneNumberKind, CreatedByKind, LastEditedByKind}
              || kind.OtherKind?
    ensures r == BooleanType <==> kind == CheckboxKind
    ensures r == DateType <==> kind in {CreatedTimeKind, LastEditedTimeKind}
    ensures r == DateRangeType <==> kind == DateKind
    ensures r == NumberType <==> kind == NumberKind
    ensures r == StringListType <==> kind in {RelationKind, MultiSelectKind, PeopleKind}
    ensures r == FileListType <==> kind == FilesKind
    ensures r == FormulaType <==> kind == FormulaKind
    ensures r == RollupType <==> kind == RollupKind
  {
    match kind
    case TitleKind => StringType
    case RichTextKind => StringType
    case EmailKind => StringType
    case SelectKind => StringType
    case UrlKind => StringType
    case PhoneNumberKind => StringType
    case CreatedByKind => StringType
    case LastEditedByKind => StringType
    case CheckboxKind => BooleanType
    case CreatedTimeKind => DateType
    case LastEditedTimeKind => DateType
    case DateKind => DateRangeType
    case NumberKind => NumberType
    case RelationKind => StringListType
    case MultiSelectKind => StringListType
    case PeopleKind => StringListType
    case FilesKind => FileListType
    case FormulaKind => FormulaType
    case RollupKind => RollupType
    case OtherKind(_) => StringType
  }

  /** Whether a decoded value has one of the plain declared types. */
  predicate Conforms(v: Value, t: TsType)
  {
    match t
    case StringType => v.Str?
    case BooleanType => v.Bool?
    case NumberType => v.Num?
    case DateType => v.DateObj?
    case StringListType => v.Arr? && forall i :: 0 <= i < |v.items| ==> v.items[i].Str?
    case FileListType =>
      v.Arr? && forall i :: 0 <= i < |v.items| ==>
        v.items[i].Obj? && "name" in v.items[i].fields && v.items[i].fields["name"].Str?
        && "url" in v.items[i].fields && (v.items[i].fields["url"].Str? || v.items[i].fields["url"].Undefined?)
    case _ => false
  }

  /**
   * For the kinds whose value is never null, the declared type describes what
   * the decoder yields: text, people and user ids, checkboxes, timestamps and
   * id lists.
   */
  lemma DeclaredTypeDescribesDecodedValue(value: PropertyValue)
    requires ValueKind(value).Some?
    requires ValueKind(value).value in {TitleKind, RichTextKind, CheckboxKind, CreatedByKind, LastEditedByKind,
                                        CreatedTimeKind, LastEditedTimeKind, MultiSelectKind, RelationKind, PeopleKind}
    ensures Conforms(Decoder.GetTypedValueFromNotion(value), EntryPropertyType(ValueKind(value).value))
  {
  }

  /**
   * Two kinds where the declaration and the decoder disagree: a select is
   * declared `string` but decodes to the whole option object, and an external
   * file's `url` decodes to the `{url}` object rather than a string.
   */
  lemma DeclaredTypeMissesSelectAndFiles(option: SelectOption, name: string, url: string)
    ensures !Conforms(Decoder.GetTypedValueFromNotion(SelectValue(Some(option))), EntryPropertyType(SelectKind))
    ensures !Conforms(Decoder.GetTypedValueFromNotion(FilesValue([FileObject(name, Some(url))])), EntryPropertyType(FilesKind))
  {
    var files := Decoder.GetTypedValueFromNotion(FilesValue([FileObject(name, Some(url))]));
    assert files.items[0].fields["url"] == Obj(map["url" := Str(url)]);
  }

  /**
   * `getPropertyKey`: camelCase of the key with its non-ASCII characters
   * removed, quoted when it starts with a digit, and `'<id>'` when nothing is
   * left. The key is never empty and never starts with a digit.
   */
  function GetPropertyKey(key: string, id: string, camelCase: string -> string): (r: string)
    ensures |r| > 0 && !IsDigit(r[0])
    ensures camelCase(StripNonAscii(key)) == "" ==> r == "'" + id + "'"
    ensures camelCase(StripNonAscii(key)) != "" ==>
              r == camelCase(StripNonAscii(key)) || r == "'" + camelCase(StripNonAscii(key)) + "'"
    ensures var parsed := camelCase(StripNonAscii(key));
            parsed != "" && !IsDigit(parsed[0]) ==> r == parsed
    ensures var parsed := camelCase(StripNonAscii(key));
            parsed != "" && IsDigit(parsed[0]) ==> r == "'" + parsed + "'"
  {
    var parsed := camelCase(StripNonAscii(key));
    if parsed == "" then "'" + id + "'"
    else if IsDigit(parsed[0]) then "'" + parsed + "'"
    else parsed
  }

  lemma {:induction false} StripAllNonAscii(s: string)
    requires forall i :: 0 <= i < |s| ==> !IsAscii(s[i])
    ensures StripNonAscii(s) == ""
  {
    if s != [] {
      StripAllNonAscii(s[1..]);
    }
  }

  /** Non-ASCII characters anywhere in a property name do not change its key. */
  lemma PropertyKeyIgnoresNonAscii(before: string, extra: string, after: string, id: string, camelCase: string -> string)
    requires forall i :: 0 <= i < |extra| ==> !IsAscii(extra[i])
    ensures GetPropertyKey(before + extra + after, id, camelCase) == GetPropertyKey(before + after, id, camelCase)
  {
    StripNonAsciiAppend(before + extra, after);
    StripNonAsciiAppend(before, extra);
    StripNonAsciiAppend(before, after);
    StripAllNonAscii(extra);
    assert StripNonAscii(before) + "" == StripNonAscii(before);
  }

  /** `getEntryType`: `<propertyKey>: <propertyType>`. */
  function GetEntryType(key: string, schema: PropertySchema, camelCase: string -> string): string
  {
    GetPropertyKey(key, schema.id, camelCase) + ": " + Render(EntryPropertyType(schema.kind))
  }

  /** `Object.entries(properties).map(getEntryType)`, in schema order. */
  function EntryTypes(props: JsObjects.Entries<PropertySchema>, camelCase: string -> string): (r: seq<string>)
    ensures |r| == |props|
    ensures forall i :: 0 <= i < |props| ==> r[i] == GetEntryType(props[i].0, props[i].1, camelCase)
  {
    seq(|props|, i requires 0 <= i < |props| => GetEntryType(props[i].0, props[i].1, camelCase))
  }

  /** `generateTypeName`: the database title camelCased, first letter upper-cased, one trailing `s` dropped. */
  function GenerateTypeName(db: Database, lodash: Lodash): Result<string, NotionableHelper.TitleError>
  {
    var title :- NotionableHelper.GetDbTitle(db, lodash);
    Success(DropTrailingS(lodash.upperFirst(lodash.camelCase(Trim(title)))))
  }

  /** A title whose normalised name is `<stem>s` names the type `<stem>`, even when `<stem>` itself ends in `s`. */
  lemma PluralTitleNamesSingular(db: Database, lodash: Lodash, stem: string)
    requires NotionableHelper.GetDbTitle(db, lodash).Success?
    requires lodash.upperFirst(lodash.camelCase(Trim(NotionableHelper.GetDbTitle(db, lodash).value))) == stem + "s"
    ensures GenerateTypeName(db, lodash) == Success(stem)
  {
    DropsExactlyOneS(stem);
  }

  /** `generateTypeFromNotionDatabase`: `export type <Name>Type = {` with an `id: string` line and one line per property. */
  function GenerateTypeFromNotionDatabase(db: Database, lodash: Lodash): (r: Result<string, NotionableHelper.TitleError>)
    ensures r.Success? ==> GenerateTypeName(db, lodash).Success?
    ensures r.Success? ==> StartsWith(r.value, "export type " + GenerateTypeName(db, lodash).value + "Type = {") && EndsWith(r.value, "}")
  {
    var name :- GenerateTypeName(db, lodash);
    var opening := "export type " + name + "Type = {";
    assert opening[0] == 'e';
    Success(TrimmedDeclaration(opening, JoinFrom("\n\tid: string", EntryTypes(db.properties, lodash.camelCase))))
  }

  /** The declaration is the header line, the reduced property lines and `\n}`, with nothing trimmed. */
  lemma DeclarationFromReduction(db: Database, lodash: Lodash)
    ensures GenerateTypeFromNotionDatabase(db, lodash).Success? <==> GenerateTypeName(db, lodash).Success?
    ensures GenerateTypeName(db, lodash).Success? ==>
              GenerateTypeFromNotionDatabase(db, lodash).value
              == "export type " + GenerateTypeName(db, lodash).value + "Type = {"
                 + JoinFrom("\n\tid: string", EntryTypes(db.properties, lodash.camelCase)) + "\n}"
  {
  }

  /**
   * The declaration exists exactly when the type name does; it is the header,
   * then `id: string` and each property's `<key>: <type>` on its own
   * `"\n\t"`-prefixed line in schema order, then `\n}`.
   */
  lemma DeclarationShape(db: Database, lodash: Lodash)
    ensures GenerateTypeFromNotionDatabase(db, lodash).Success? <==> GenerateTypeName(db, lodash).Success?
    ensures GenerateTypeName(db, lodash).Success? ==>
              GenerateTypeFromNotionDatabase(db, lodash).value
              == "export type " + GenerateTypeName(db, lodash).value + "Type = {"
                 + Concat(Separated(["id: string"] + EntryTypes(db.properties, lodash.camelCase))) + "\n}"
  {
    DeclarationFromReduction(db, lodash);
    IdLineFirst(EntryTypes(db.properties, lodash.camelCase));
  }

  /** `generateTypeFiles` without the file system: the one declaration file and its name. */
  function GenerateTypeFiles(db: Database, lodash: Lodash): (r: Result<GeneratedFiles, NotionableHelper.TitleError>)
    ensures r.Success? <==> GenerateTypeName(db, lodash).Success?
    ensures r.Success? ==>
              && r.value.typeName == GenerateTypeName(db, lodash).value
              && |r.value.files| == 1
              && r.value.files[0].0 == r.value.typeName + ".type.ts"
              && Success(r.value.files[0].1) == GenerateTypeFromNotionDatabase(db, lodash)
  {
    DeclarationFromReduction(db, lodash);
    match GenerateTypeFromNotionDatabase(db, lodash)
    case Failure(e) => Failure(e)
    case Success(text) =>
      var fileName := GenerateTypeName(db, lodash).value;
      Success(GeneratedFiles(fileName, [(fileName + ".type.ts", text)]))
  }
}
