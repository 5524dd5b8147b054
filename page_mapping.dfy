/**
 * The two object-building loops that every generation of the mappers shares:
 * page properties to an application item (`mapNotionPageToItem`) and an
 * application item to a page-creation payload (`mapItemToNotionPage`,
 * `mapTypeToNotion`). Each generation supplies its own per-property function.
 */
module PageMapping {
  import opened Wrappers
  import opened JsRuntime
  import opened JsObjects
  import opened NotionApi

  /**
   * `typeNames[propName]` used as a computed key: a property the mapping does
   * not name reads as `undefined`, which becomes the key "undefined".
   */
  function FieldKey(typeNames: map<string, string>, propName: string): string
  {
    if propName in typeNames then typeNames[propName] else "undefined"
  }

  /** One `[typeNames[propName]]: decode(propValue)` entry per page property, in order. */
  function FieldEntries(
    props: Entries<PropertyValue>, typeNames: map<string, string>, decode: PropertyValue -> Value
  ): (r: Entries<Value>)
    ensures |r| == |props|
    ensures forall i :: 0 <= i < |props| ==> r[i] == (FieldKey(typeNames, props[i].0), decode(props[i].1))
  {
    seq(|props|, i requires 0 <= i < |props| => (FieldKey(typeNames, props[i].0), decode(props[i].1)))
  }

  /** `{id: page.id, ...page properties reduced under the inverted mapping}`. */
  function ItemFromPage(page: Page, propNames: Entries<string>, decode: PropertyValue -> Value): map<string, Value>
  {
    map["id" := Str(page.id)] + Assign(FieldEntries(page.properties, Invert(propNames), decode))
  }

  /** The item's keys: `id` and the key of every page property. */
  lemma ItemKeys(page: Page, propNames: Entries<string>, decode: PropertyValue -> Value)
    ensures ItemFromPage(page, propNames, decode).Keys ==
              {"id"} + (set i | 0 <= i < |page.properties| :: FieldKey(Invert(propNames), page.properties[i].0))
  {
    var typeNames := Invert(propNames);
    var props := page.properties;
    var fields := FieldEntries(props, typeNames, decode);
    AssignKeys(fields);
    assert KeySet(fields) == (set i | 0 <= i < |props| :: FieldKey(typeNames, props[i].0)) by {
      forall k | k in KeySet(fields) ensures k in (set i | 0 <= i < |props| :: FieldKey(typeNames, props[i].0)) {
        var i :| 0 <= i < |fields| && fields[i].0 == k;
        assert FieldKey(typeNames, props[i].0) == k;
      }
    }
  }

  /** A property whose key no later property reuses has its decoded value in the item. */
  lemma ItemField(page: Page, propNames: Entries<string>, decode: PropertyValue -> Value, i: nat)
    requires i < |page.properties|
    requires forall j :: i < j < |page.properties| ==>
               FieldKey(Invert(propNames), page.properties[j].0) != FieldKey(Invert(propNames), page.properties[i].0)
    ensures var item := ItemFromPage(page, propNames, decode);
            FieldKey(Invert(propNames), page.properties[i].0) in item
            && item[FieldKey(Invert(propNames), page.properties[i].0)] == decode(page.properties[i].1)
  {
    AssignLastWins(FieldEntries(page.properties, Invert(propNames), decode), i);
  }

  /** `id` is the page's id unless a property's field is keyed "id", since the fields are spread after it. */
  lemma ItemId(page: Page, propNames: Entries<string>, decode: PropertyValue -> Value)
    requires forall i :: 0 <= i < |page.properties| ==> FieldKey(Invert(propNames), page.properties[i].0) != "id"
    ensures ItemFromPage(page, propNames, decode)["id"] == Str(page.id)
  {
    var fields := FieldEntries(page.properties, Invert(propNames), decode);
    AssignKeys(fields);
    assert "id" !in KeySet(fields);
  }

  /**
   * The item holds `id` and one field per page property; the field of a
   * property whose key no later property reuses holds its decoded value; and
   * `id` is the page's id unless some property is keyed "id".
   */
  lemma ItemFromPageShape(page: Page, propNames: Entries<string>, decode: PropertyValue -> Value)
    ensures var item := ItemFromPage(page, propNames, decode);
            var typeNames := Invert(propNames);
            var props := page.properties;
            && item.Keys == {"id"} + (set i | 0 <= i < |props| :: FieldKey(typeNames, props[i].0))
            && ((forall i :: 0 <= i < |props| ==> FieldKey(typeNames, props[i].0) != "id") ==> item["id"] == Str(page.id))
            && (forall i :: 0 <= i < |props| && (forall j :: i < j < |props| ==> FieldKey(typeNames, props[j].0) != FieldKey(typeNames, props[i].0))
                  ==> item[FieldKey(typeNames, props[i].0)] == decode(props[i].1))
  {
    var typeNames := Invert(propNames);
    var props := page.properties;
    ItemKeys(page, propNames, decode);
    if forall i :: 0 <= i < |props| ==> FieldKey(typeNames, props[i].0) != "id" {
      ItemId(page, propNames, decode);
    }
    forall i | 0 <= i < |props| && (forall j :: i < j < |props| ==> FieldKey(typeNames, props[j].0) != FieldKey(typeNames, props[i].0))
      ensures ItemFromPage(page, propNames, decode)[FieldKey(typeNames, props[i].0)] == decode(props[i].1)
    {
      ItemField(page, propNames, decode, i);
    }
  }

  /** Under an injective mapping, a property name maps back to the one application name that names it. */
  lemma InjectiveFieldKey(propNames: Entries<string>, propName: string, j: nat)
    requires DistinctValues(propNames) && j < |propNames| && propNames[j].1 == propName
    ensures FieldKey(Invert(propNames), propName) == propNames[j].0
  {
    InvertInjective(propNames, j);
  }

  /** Under an injective mapping, distinct page properties land under distinct keys. */
  lemma InjectiveFieldKeysDistinct(page: Page, propNames: Entries<string>)
    requires DistinctKeys(propNames)
    requires DistinctKeys(page.properties)
    requires forall i :: 0 <= i < |page.properties| ==> page.properties[i].0 in ValueSet(propNames)
    ensures forall i, k :: 0 <= i < k < |page.properties| ==>
              FieldKey(Invert(propNames), page.properties[i].0) != FieldKey(Invert(propNames), page.properties[k].0)
  {
    var typeNames := Invert(propNames);
    var props := page.properties;
    InvertKeys(propNames);
    forall i, k | 0 <= i < k < |props|
      ensures FieldKey(typeNames, props[i].0) != FieldKey(typeNames, props[k].0)
    {
      if typeNames[props[i].0] == typeNames[props[k].0] {
        InvertIsInjective(propNames, props[i].0, props[k].0);
      }
    }
  }

  /** Under an injective mapping that names every page property, each name holds the decoded value of the property it maps to. */
  lemma InjectiveItemValues(page: Page, propNames: Entries<string>, decode: PropertyValue -> Value)
    requires DistinctKeys(propNames) && DistinctValues(propNames)
    requires DistinctKeys(page.properties)
    requires forall i :: 0 <= i < |page.properties| ==> page.properties[i].0 in ValueSet(propNames)
    ensures var item := ItemFromPage(page, propNames, decode);
            var props := page.properties;
            forall i, j :: 0 <= i < |props| && 0 <= j < |propNames| && propNames[j].1 == props[i].0
              ==> propNames[j].0 in item && item[propNames[j].0] == decode(props[i].1)
  {
    var item := ItemFromPage(page, propNames, decode);
    var props := page.properties;
    InjectiveFieldKeysDistinct(page, propNames);
    forall i, j | 0 <= i < |props| && 0 <= j < |propNames| && propNames[j].1 == props[i].0
      ensures propNames[j].0 in item && item[propNames[j].0] == decode(props[i].1)
    {
      InjectiveFieldKey(propNames, props[i].0, j);
      ItemField(page, propNames, decode, i);
    }
  }

  /** Under an injective mapping that names every page property, the item's keys are `id` and the names of the page's properties. */
  lemma InjectiveItemKeys(page: Page, propNames: Entries<string>, decode: PropertyValue -> Value)
    requires DistinctKeys(propNames) && DistinctValues(propNames)
    requires forall i :: 0 <= i < |page.properties| ==> page.properties[i].0 in ValueSet(propNames)
    ensures var item := ItemFromPage(page, propNames, decode);
            var props := page.properties;
            forall key :: key in item <==>
              key == "id" || exists i, j :: 0 <= i < |props| && 0 <= j < |propNames| && propNames[j].1 == props[i].0 && key == propNames[j].0
  {
    var item := ItemFromPage(page, propNames, decode);
    var typeNames := Invert(propNames);
    var props := page.properties;
    ItemKeys(page, propNames, decode);
    forall key | key in item && key != "id"
      ensures exists i, j :: 0 <= i < |props| && 0 <= j < |propNames| && propNames[j].1 == props[i].0 && key == propNames[j].0
    {
      var i :| 0 <= i < |props| && key == FieldKey(typeNames, props[i].0);
      var j :| 0 <= j < |propNames| && propNames[j].1 == props[i].0;
      InjectiveFieldKey(propNames, props[i].0, j);
    }
    forall i, j | 0 <= i < |props| && 0 <= j < |propNames| && propNames[j].1 == props[i].0
      ensures propNames[j].0 in item
    {
      InjectiveFieldKey(propNames, props[i].0, j);
    }
  }

  /** Under an injective mapping that names every page property, `id` is the page's id when no application name is "id". */
  lemma InjectiveItemId(page: Page, propNames: Entries<string>, decode: PropertyValue -> Value)
    requires DistinctValues(propNames)
    requires forall i :: 0 <= i < |page.properties| ==> page.properties[i].0 in ValueSet(propNames)
    requires forall j :: 0 <= j < |propNames| ==> propNames[j].0 != "id"
    ensures ItemFromPage(page, propNames, decode)["id"] == Str(page.id)
  {
    var props := page.properties;
    forall i | 0 <= i < |props| ensures FieldKey(Invert(propNames), props[i].0) != "id" {
      var j :| 0 <= j < |propNames| && propNames[j].1 == props[i].0;
      InjectiveFieldKey(propNames, props[i].0, j);
    }
    ItemId(page, propNames, decode);
  }

  /**
   * For an injective mapping that names every page property: distinct page
   * properties land under distinct application names, the item's keys are
   * `id` and those names, each name holds the decoded value of the property it
   * maps to, and `id` is the page's id when no application name is "id".
   */
  lemma ItemFromInjectiveMapping(page: Page, propNames: Entries<string>, decode: PropertyValue -> Value)
    requires DistinctKeys(propNames) && DistinctValues(propNames)
    requires DistinctKeys(page.properties)
    requires forall i :: 0 <= i < |page.properties| ==> page.properties[i].0 in ValueSet(propNames)
    ensures var item := ItemFromPage(page, propNames, decode);
            var props := page.properties;
            && (forall i, j :: 0 <= i < |props| && 0 <= j < |propNames| && propNames[j].1 == props[i].0
                  ==> propNames[j].0 in item && item[propNames[j].0] == decode(props[i].1))
            && (forall i, k :: 0 <= i < k < |props| ==> FieldKey(Invert(propNames), props[i].0) != FieldKey(Invert(propNames), props[k].0))
            && (forall key :: key in item <==>
                  key == "id" || exists i, j :: 0 <= i < |props| && 0 <= j < |propNames| && propNames[j].1 == props[i].0 && key == propNames[j].0)
            && ((forall j :: 0 <= j < |propNames| ==> propNames[j].0 != "id") ==> item["id"] == Str(page.id))
  {
    InjectiveFieldKeysDistinct(page, propNames);
    InjectiveItemValues(page, propNames, decode);
    InjectiveItemKeys(page, propNames, decode);
    if forall j :: 0 <= j < |propNames| ==> propNames[j].0 != "id" {
      InjectiveItemId(page, propNames, decode);
    }
  }

  /** A per-property payload builder: `getNotionProperty({propName, database, inputValue})`. */
  type Builder = (Database, string, Value) -> Result<PropertyPayload, EncodeError>

  /** The payload the builder makes for the i-th mapping entry, from `input[typeName]`. */
  function BuildAt(db: Database, properties: Entries<string>, input: map<string, Value>, build: Builder, i: nat): Result<PropertyPayload, EncodeError>
    requires i < |properties|
  {
    build(db, properties[i].1, Field(input, properties[i].0))
  }

  /**
   * The `[propName]: payload` entries, one per mapping entry in order; the
   * first builder that throws aborts the whole reduction with its error.
   */
  function BuildEntries(db: Database, properties: Entries<string>, input: map<string, Value>, build: Builder): (r: Result<Entries<PropertyPayload>, EncodeError>)
    ensures r.Success? <==> forall i :: 0 <= i < |properties| ==> BuildAt(db, properties, input, build, i).Success?
    ensures r.Success? ==> |r.value| == |properties|
    ensures r.Success? ==> forall i :: 0 <= i < |properties| ==> r.value[i] == (properties[i].1, BuildAt(db, properties, input, build, i).value)
    ensures r.Failure? ==> exists i :: 0 <= i < |properties| && BuildAt(db, properties, input, build, i) == Failure(r.error)
                             && forall j :: 0 <= j < i ==> BuildAt(db, properties, input, build, j).Success?
    decreases |properties|
  {
    if properties == [] then Success([])
    else
      var rest := properties[1..];
      assert forall i :: 0 <= i < |rest| ==> BuildAt(db, rest, input, build, i) == BuildAt(db, properties, input, build, i + 1);
      match BuildAt(db, properties, input, build, 0)
      case Failure(e) => Failure(e)
      case Success(p) =>
        match BuildEntries(db, rest, input, build)
        case Failure(e) =>
          assert exists i :: 1 <= i < |properties| && BuildAt(db, properties, input, build, i) == Failure(e)
                             && forall j :: 0 <= j < i ==> BuildAt(db, properties, input, build, j).Success? by {
            var k :| 0 <= k < |rest| && BuildAt(db, rest, input, build, k) == Failure(e)
                     && forall j :: 0 <= j < k ==> BuildAt(db, rest, input, build, j).Success?;
            assert BuildAt(db, properties, input, build, k + 1) == Failure(e);
            forall j | 0 <= j < k + 1 ensures BuildAt(db, properties, input, build, j).Success? {
              if j > 0 { assert BuildAt(db, properties, input, build, j) == BuildAt(db, rest, input, build, j - 1); }
            }
          }
          Failure(e)
        case Success(tail) => Success([(properties[0].1, p)] + tail)
  }

  /** `{parent: {database_id: database.id}, properties: ...}`. */
  function PageFromItem(db: Database, properties: Entries<string>, input: map<string, Value>, build: Builder): Result<PageCreate, EncodeError>
  {
    var entries :- BuildEntries(db, properties, input, build);
    Success(PageCreate(db.id, Assign(entries)))
  }

  /**
   * The payload exists exactly when no builder throws; its parent is the
   * database, its keys are the mapping's property names, and each property
   * name holds the payload built from its application field (the last one,
   * should two application names share a property name). Otherwise the error
   * is that of the first entry whose builder throws.
   */
  lemma PageFromItemShape(db: Database, properties: Entries<string>, input: map<string, Value>, build: Builder)
    ensures var r := PageFromItem(db, properties, input, build);
            && (r.Success? <==> forall i :: 0 <= i < |properties| ==> BuildAt(db, properties, input, build, i).Success?)
            && (r.Success? ==> r.value.parentDatabaseId == db.id && r.value.properties.Keys == ValueSet(properties))
            && (r.Success? ==>
                  forall i :: 0 <= i < |properties| && (forall j :: i < j < |properties| ==> properties[j].1 != properties[i].1)
                    ==> r.value.properties[properties[i].1] == BuildAt(db, properties, input, build, i).value)
            && (r.Failure? ==>
                  exists i :: 0 <= i < |properties| && BuildAt(db, properties, input, build, i) == Failure(r.error)
                    && forall j :: 0 <= j < i ==> BuildAt(db, properties, input, build, j).Success?)
  {
    var entries := BuildEntries(db, properties, input, build);
    if entries.Success? {
      var e := entries.value;
      AssignKeys(e);
      assert KeySet(e) == ValueSet(properties) by {
        forall k | k in ValueSet(properties) ensures k in KeySet(e) {
          var i :| 0 <= i < |properties| && properties[i].1 == k;
          assert e[i].0 == k;
        }
      }
      forall i | 0 <= i < |properties| && (forall j :: i < j < |properties| ==> properties[j].1 != properties[i].1)
        ensures Assign(e)[properties[i].1] == BuildAt(db, properties, input, build, i).value
      {
        AssignLastWins(e, i);
      }
    }
  }
}
