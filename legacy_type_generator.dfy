/**
 * The oldest type generator: it writes a `<Name>.props.ts` file mapping each
 * camelCased key to its schema key and a `<Name>.type.ts` declaration with
 * one line per property and no `id` line. It shares the middle generation's
 * type table and the type name of the oldest generation's helpers.
 */
module LegacyTypeGenerator {
  import opened JsRuntime
  import opened JsStrings
  import JsObjects
  import opened NotionApi
  import opened TypeNaming
  import LegacyUtils
  import Core = CoreTypeGenerator

  /** One line of the properties object: `<camelCase(key)>: '<key>',`. */
  function PropLine(key: string, camelCase: string -> string): string
  {
    camelCase(key) + ": '" + key + "',"
  }

  function PropLines(keys: seq<string>, camelCase: string -> string): (r: seq<string>)
    ensures |r| == |keys|
    ensures forall i :: 0 <= i < |keys| ==> r[i] == PropLine(keys[i], camelCase)
  {
    seq(|keys|, i requires 0 <= i < |keys| => PropLine(keys[i], camelCase))
  }

  /** `generatePropertiesFromType`: `export const <Name>Props = {`, one line per schema key, `}`. */
  function GeneratePropertiesFromType(db: Database, lodash: Lodash): (r: string)
    ensures StartsWith(r, "export const " + LegacyUtils.GenerateTypeName(db, lodash) + "Props = {")
  {
    var opening := "export const " + LegacyUtils.GenerateTypeName(db, lodash) + "Props = {";
    assert opening[0] == 'e';
    TrimmedDeclaration(opening, JoinFrom("", PropLines(PropertyNames(db), lodash.camelCase)))
  }

  /**
   * The properties object is its header, then each schema key's
   * `<camelCase(key)>: '<key>',` on its own `"\n\t"`-prefixed line in schema
   * order, then `\n}`.
   */
  lemma PropertiesShape(db: Database, lodash: Lodash)
    ensures GeneratePropertiesFromType(db, lodash)
            == "export const " + LegacyUtils.GenerateTypeName(db, lodash) + "Props = {"
               + Concat(Separated(PropLines(PropertyNames(db), lodash.camelCase))) + "\n}"
  {
    JoinFromEmpty(PropLines(PropertyNames(db), lodash.camelCase));
  }

  /** `generateTypeFromNotionDatabase`: `export type <Name>Type = {`, one line per property, `}`. */
  function GenerateTypeFromNotionDatabase(db: Database, lodash: Lodash): (r: string)
    ensures StartsWith(r, "export type " + LegacyUtils.GenerateTypeName(db, lodash) + "Type = {")
  {
    var opening := "export type " + LegacyUtils.GenerateTypeName(db, lodash) + "Type = {";
    assert opening[0] == 'e';
    TrimmedDeclaration(opening, JoinFrom("", Core.EntryTypes(db.properties, lodash.camelCase)))
  }

  /**
   * The declaration is its header, then each property's `<key>: <type>` on
   * its own `"\n\t"`-prefixed line in schema order, then `\n}`.
   */
  lemma DeclarationShape(db: Database, lodash: Lodash)
    ensures GenerateTypeFromNotionDatabase(db, lodash)
            == "export type " + LegacyUtils.GenerateTypeName(db, lodash) + "Type = {"
               + Concat(Separated(Core.EntryTypes(db.properties, lodash.camelCase))) + "\n}"
  {
    JoinFromEmpty(Core.EntryTypes(db.properties, lodash.camelCase));
  }

  /**
   * The middle generation's declaration is this one with the `id: string`
   * line put before the property lines.
   */
  lemma CoreAddsIdLine(db: Database, lodash: Lodash)
    ensures var lines := Core.EntryTypes(db.properties, lodash.camelCase);
            Core.GenerateTypeFromNotionDatabase(db, lodash)
            == "export type " + LegacyUtils.GenerateTypeName(db, lodash) + "Type = {" + ("\n\tid: string" + JoinFrom("", lines)) + "\n}"
  {
    JoinFromPrefix("\n\tid: string", Core.EntryTypes(db.properties, lodash.camelCase));
  }

  /**
   * The two files list the same keys in the same order: line `i` of both
   * starts with the camelCase of the `i`-th schema key.
   */
  lemma FilesListSameKeys(db: Database, lodash: Lodash, i: nat)
    requires i < |db.properties|
    ensures var key := lodash.camelCase(db.properties[i].0) + ": ";
            StartsWith(PropLines(PropertyNames(db), lodash.camelCase)[i], key)
            && StartsWith(Core.EntryTypes(db.properties, lodash.camelCase)[i], key)
  {
    var key := lodash.camelCase(db.properties[i].0);
    assert PropLine(db.properties[i].0, lodash.camelCase) == key + ": " + ("'" + db.properties[i].0 + "',");
  }

  /**
   * The two files written are `<Name>.props.ts`, mapping every camelCased
   * key to its schema key, then `<Name>.type.ts`, declaring one line per
   * property; both list the schema in order.
   */
  lemma GeneratedFilesText(db: Database, lodash: Lodash)
    ensures var name := LegacyUtils.GenerateTypeName(db, lodash);
            GenerateTypeFiles(db, lodash).files
            == [(name + ".props.ts",
                 "export const " + name + "Props = {" + Concat(Separated(PropLines(PropertyNames(db), lodash.camelCase))) + "\n}"),
                (name + ".type.ts",
                 "export type " + name + "Type = {" + Concat(Separated(Core.EntryTypes(db.properties, lodash.camelCase))) + "\n}")]
  {
    PropertiesShape(db, lodash);
    DeclarationShape(db, lodash);
  }

  /**
   * `generateTypeFiles` without the file system: the properties file, then
   * the declaration file, both named after the type.
   */
  function GenerateTypeFiles(db: Database, lodash: Lodash): (r: GeneratedFiles)
    ensures r.typeName == LegacyUtils.GenerateTypeName(db, lodash)
    ensures r.files == [(r.typeName + ".props.ts", GeneratePropertiesFromType(db, lodash)),
                        (r.typeName + ".type.ts", GenerateTypeFromNotionDatabase(db, lodash))]
  {
    var fileName := LegacyUtils.GenerateTypeName(db, lodash);
    GeneratedFiles(fileName, [(fileName + ".props.ts", GeneratePropertiesFromType(db, lodash)),
                              (fileName + ".type.ts", GenerateTypeFromNotionDatabase(db, lodash))])
  }
}
