/**
 * The oldest generation's encoder, `mapTypeToNotion`: the same reduction and
 * the same title / rich-text / number builders as the middle generation, with
 * the mapping passed first.
 */
module LegacyTypeToNotionMappers {
  import opened Wrappers
  import opened JsRuntime
  import JsObjects
  import opened NotionApi
  import Core = CoreMapperToNotion

  /** `mapTypeToNotion(props, database, inputObject)`. */
  function MapTypeToNotion(props: JsObjects.Entries<string>, db: Database, inputObject: map<string, Value>): Result<PageCreate, EncodeError>
  {
    Core.MapItemToNotionPage(db, props, inputObject)
  }

  /**
   * The mapping succeeds exactly when the schema declares every property it
   * names; on success the parent is the database and the keys are the
   * mapping's property names; a property name no later entry reuses holds a
   * one-element title list if the schema calls it a title, the bare value if
   * a number, and a one-element rich-text list otherwise, each carrying the
   * application field's value.
   */
  lemma MapTypeToNotionShape(props: JsObjects.Entries<string>, db: Database, inputObject: map<string, Value>)
    ensures var r := MapTypeToNotion(props, db, inputObject);
            && (r.Success? <==> forall i :: 0 <= i < |props| ==> props[i].1 in JsObjects.KeySet(db.properties))
            && (r.Success? ==> r.value.parentDatabaseId == db.id && r.value.properties.Keys == JsObjects.ValueSet(props))
            && (r.Success? ==>
                  forall i :: 0 <= i < |props| && (forall j :: i < j < |props| ==> props[j].1 != props[i].1) ==>
                    var payload := r.value.properties[props[i].1];
                    var value := Field(inputObject, props[i].0);
                    var kind := SchemaOf(db, props[i].1).value.kind;
                    && (kind == TitleKind ==> payload == TitlePayload([TextInput(Some("text"), value)]))
                    && (kind == NumberKind ==> payload == NumberPayload(value))
                    && (kind != TitleKind && kind != NumberKind ==> payload == RichTextPayload([TextInput(None, value)])))
  {
    Core.MapItemToNotionPageShape(db, props, inputObject);
    forall i | 0 <= i < |props|
      ensures var p := Core.GetNotionProperty(db, props[i].1, Field(inputObject, props[i].0));
              p.Success? ==>
                var value := Field(inputObject, props[i].0);
                var kind := SchemaOf(db, props[i].1).value.kind;
                && (kind == TitleKind ==> p.value == TitlePayload([TextInput(Some("text"), value)]))
                && (kind == NumberKind ==> p.value == NumberPayload(value))
                && (kind != TitleKind && kind != NumberKind ==> p.value == RichTextPayload([TextInput(None, value)]))
    {
      Core.PropertyPayloadByKind(db, props[i].1, Field(inputObject, props[i].0));
    }
  }
}
