/**
 * The middle generation's type generator: the camelCase property map, a
 * small per-kind type table with `string` as its default, and the text of
 * the generated `<Name>.type.ts` declaration, which always starts with an
 * `id: string` line.
 */
module CoreTypeGenerator {
  import opened JsRuntime
  import opened JsStrings
  import JsObjects
  import opened NotionApi
  import opened TypeNaming
  import LegacyUtils
  import Newest = NotionableTypeGenerator

  /** `getPropertiesMap`: `{[camelCase(key)]: key}` over the schema's keys. */
  function GetPropertiesMap(db: Database, camelCase: string -> string): map<string, string>
  {
    JsObjects.Assign(Newest.CamelEntries(db.properties, camelCase))
  }

  /**
   * The map's keys are the camelCased schema keys; every value is a schema
   * key whose camelCase is its own key; a schema key no later key collides
   * with is the value under its camelCase.
   */
  lemma PropertiesMapShape(db: Database, camelCase: string -> string)
    ensures var m := GetPropertiesMap(db, camelCase);
            var props := db.properties;
            && m.Keys == (set i | 0 <= i < |props| :: camelCase(props[i].0))
            && (forall c :: c in m ==> camelCase(m[c]) == c && m[c] in JsObjects.KeySet(props))
            && (forall i :: 0 <= i < |props| && (forall j :: i < j < |props| ==> camelCase(props[j].0) != camelCase(props[i].0))
                  ==> m[camelCase(props[i].0)] == props[i].0)
  {
    var lodash := Lodash(camelCase, camelCase, camelCase);
    Newest.PropertiesMapShape(db, lodash);
  }

  /** The type `getEntryType` declares: text kinds and the default are `string`. */
  function EntryPropertyType(kind: PropertyKind): (r: TsType)
    ensures r in {StringType, BooleanType, DateType, NumberType}
    ensures r == BooleanType <==> kind == CheckboxKind
    ensures r == NumberType <==> kind == NumberKind
    ensures r == DateType <==> kind in {CreatedByKind, CreatedTimeKind, LastEditedTimeKind, DateKind}
  {
    match kind
    case TitleKind => StringType
    case RichTextKind => StringType
    case EmailKind => StringType
    case CheckboxKind => BooleanType
    case CreatedByKind => DateType
    case CreatedTimeKind => DateType
    case LastEditedTimeKind => DateType
    case DateKind => DateType
    case NumberKind => NumberType
    case _ => StringType
  }

  /** This table and the newest agree on text, e-mail, checkbox, number and the two timestamps. */
  lemma TableAgreesWithNewest(kind: PropertyKind)
    requires kind in {TitleKind, RichTextKind, EmailKind, CheckboxKind, NumberKind, CreatedTimeKind, LastEditedTimeKind}
    ensures EntryPropertyType(kind) == Newest.EntryPropertyType(kind)
  {
  }

  /**
   * Where the two tables part ways: this one declares `created_by` (a user id
   * when decoded) as `Date`, a date as a bare `Date`, and list, formula and
   * rollup kinds as `string`.
   */
  lemma TableDisagreesWithNewest(kind: PropertyKind)
    requires kind in {CreatedByKind, DateKind, MultiSelectKind, RelationKind, PeopleKind, FilesKind, FormulaKind, RollupKind}
    ensures EntryPropertyType(kind) != Newest.EntryPropertyType(kind)
  {
  }

  /** `getEntryType`: `<camelCase(key)>: <type>`. */
  function GetEntryType(key: string, schema: PropertySchema, camelCase: string -> string): string
  {
    camelCase(key) + ": " + Render(EntryPropertyType(schema.kind))
  }

  /** `Object.entries(properties).map(getEntryType)`, in schema order. */
  function EntryTypes(props: JsObjects.Entries<PropertySchema>, camelCase: string -> string): (r: seq<string>)
    ensures |r| == |props|
    ensures forall i :: 0 <= i < |props| ==> r[i] == GetEntryType(props[i].0, props[i].1, camelCase)
  {
    seq(|props|, i requires 0 <= i < |props| => GetEntryType(props[i].0, props[i].1, camelCase))
  }

  /** `generateTypeFromNotionDatabase`: `export type <Name>Type = {`, the `id: string` line, one line per property, `}`. */
  function GenerateTypeFromNotionDatabase(db: Database, lodash: Lodash): (r: string)
    ensures StartsWith(r, "export type " + LegacyUtils.GenerateTypeName(db, lodash) + "Type = {") && EndsWith(r, "}")
  {
    var opening := "export type " + LegacyUtils.GenerateTypeName(db, lodash) + "Type = {";
    assert opening[0] == 'e';
    TrimmedDeclaration(opening, JoinFrom("\n\tid: string", EntryTypes(db.properties, lodash.camelCase)))
  }

  /**
   * The declaration is the header, then `id: string` and each property's
   * `<key>: <type>` on its own `"\n\t"`-prefixed line in schema order, then
   * `\n}`.
   */
  lemma DeclarationShape(db: Database, lodash: Lodash)
    ensures GenerateTypeFromNotionDatabase(db, lodash)
            == "export type " + LegacyUtils.GenerateTypeName(db, lodash) + "Type = {"
               + Concat(Separated(["id: string"] + EntryTypes(db.properties, lodash.camelCase))) + "\n}"
  {
    IdLineFirst(EntryTypes(db.properties, lodash.camelCase));
  }

  /**
   * The one file written is `<Name>.type.ts`, named after the type it
   * declares, and holds the header, the `id: string` line, one line per
   * property in schema order and the closing brace.
   */
  lemma GeneratedFileText(db: Database, lodash: Lodash)
    ensures var name := LegacyUtils.GenerateTypeName(db, lodash);
            var r := GenerateTypeFiles(db, lodash);
            && r.typeName == name && |r.files| == 1
            && r.files[0].0 == name + ".type.ts"
            && r.files[0].1 == "export type " + name + "Type = {"
                               + Concat(Separated(["id: string"] + EntryTypes(db.properties, lodash.camelCase))) + "\n}"
  {
    DeclarationShape(db, lodash);
  }

  /** `generateTypeFiles` without the file system: the one declaration file and its name. */
  function GenerateTypeFiles(db: Database, lodash: Lodash): (r: GeneratedFiles)
    ensures r.typeName == LegacyUtils.GenerateTypeName(db, lodash)
    ensures r.files == [(r.typeName + ".type.ts", GenerateTypeFromNotionDatabase(db, lodash))]
  {
    var fileName := LegacyUtils.GenerateTypeName(db, lodash);
    GeneratedFiles(fileName, [(fileName + ".type.ts", GenerateTypeFromNotionDatabase(db, lodash))])
  }
}
