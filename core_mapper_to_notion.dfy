/**
 * The first encoder from application items to Notion page payloads: title,
 * rich-text and number properties get their own payloads, and every other
 * declared kind is written as rich text.
 */
module CoreMapperToNotion {
  import opened Wrappers
  import opened JsRuntime
  import JsObjects
  import opened NotionApi
  import PageMapping
  import Newest = NotionableMapperToNotion

  /**
   * `getNotionProperty`: the schema's declared kind picks the payload; any
   * kind but title and number falls back to rich text. Reading the kind of a
   * property the schema lacks throws.
   */
  function GetNotionProperty(db: Database, propName: string, value: Value): Result<PropertyPayload, EncodeError>
  {
    match SchemaOf(db, propName)
    case None => Failure(UnknownProperty(propName))
    case Some(schema) =>
      match schema.kind
      case TitleKind => Success(Newest.GetNotionTitleValue(value))
      case NumberKind => Success(NumberPayload(value))
      case _ => Success(Newest.GetNotionRichTextValue(value))
  }

  /**
   * Exactly the properties the schema lacks throw; a title gets a one-element
   * title list and a number the bare value; every other kind gets a
   * one-element rich-text list; the input value is carried unchanged.
   */
  lemma PropertyPayloadByKind(db: Database, propName: string, value: Value)
    ensures var r := GetNotionProperty(db, propName, value);
            && (r.Failure? <==> propName !in JsObjects.KeySet(db.properties))
            && (r.Failure? ==> r.error == UnknownProperty(propName))
            && (r.Success? && SchemaOf(db, propName).value.kind == TitleKind ==>
                  r.value.TitlePayload? && |r.value.title| == 1 && r.value.title[0] == TextInput(Some("text"), value))
            && (r.Success? && SchemaOf(db, propName).value.kind == NumberKind ==> r.value == NumberPayload(value))
            && (r.Success? && SchemaOf(db, propName).value.kind !in {TitleKind, NumberKind} ==>
                  r.value.RichTextPayload? && |r.value.richText| == 1 && r.value.richText[0] == TextInput(None, value))
  {
    JsObjects.AssignKeys(db.properties);
  }

  function Builder(): PageMapping.Builder
  {
    (db: Database, propName: string, value: Value) => GetNotionProperty(db, propName, value)
  }

  /** `mapItemToNotionPage`: one payload per mapping entry, built from `input[typeName]`. */
  function MapItemToNotionPage(db: Database, properties: JsObjects.Entries<string>, input: map<string, Value>): Result<PageCreate, EncodeError>
  {
    PageMapping.PageFromItem(db, properties, input, Builder())
  }

  /**
   * The mapping succeeds exactly when the schema declares every property it
   * names; on success the parent is the database, the keys are the mapping's
   * property names, and a property name no later entry reuses holds the
   * payload built from its application field.
   */
  lemma MapItemToNotionPageShape(db: Database, properties: JsObjects.Entries<string>, input: map<string, Value>)
    ensures var r := MapItemToNotionPage(db, properties, input);
            && (r.Success? <==> forall i :: 0 <= i < |properties| ==> properties[i].1 in JsObjects.KeySet(db.properties))
            && (r.Success? ==> r.value.parentDatabaseId == db.id && r.value.properties.Keys == JsObjects.ValueSet(properties))
            && (r.Success? ==>
                  forall i :: 0 <= i < |properties| && (forall j :: i < j < |properties| ==> properties[j].1 != properties[i].1)
                    ==> r.value.properties[properties[i].1] == GetNotionProperty(db, properties[i].1, Field(input, properties[i].0)).value)
  {
    PageMapping.PageFromItemShape(db, properties, input, Builder());
    forall i | 0 <= i < |properties|
      ensures PageMapping.BuildAt(db, properties, input, Builder(), i)
           == GetNotionProperty(db, properties[i].1, Field(input, properties[i].0))
      ensures GetNotionProperty(db, properties[i].1, Field(input, properties[i].0)).Success?
          <==> properties[i].1 in JsObjects.KeySet(db.properties)
    {
      PropertyPayloadByKind(db, properties[i].1, Field(input, properties[i].0));
    }
  }
}
