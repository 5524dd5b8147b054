/**
 * The newest encoder from application items to Notion page payloads: the
 * schema's declared kind picks one of ten payload builders, and every other
 * kind throws, failing the whole mapping.
 */
module NotionableMapperToNotion {
  import opened Wrappers
  import opened JsRuntime
  import JsObjects
  import opened NotionApi
  import PageMapping

  /** The ten kinds this mapper can write. */
  predicate Writable(kind: PropertyKind)
  {
    kind in {TitleKind, RichTextKind, NumberKind, DateKind, PhoneNumberKind,
             UrlKind, CheckboxKind, MultiSelectKind, SelectKind, EmailKind}
  }

  /** `getNotionTitleValue`: a one-element title list of type 'text' carrying the value. */
  function GetNotionTitleValue(value: Value): PropertyPayload
  {
    TitlePayload([TextInput(Some("text"), value)])
  }

  /** `getNotionRichTextValue`: a one-element rich-text list carrying the value, without a type. */
  function GetNotionRichTextValue(value: Value): PropertyPayload
  {
    RichTextPayload([TextInput(None, value)])
  }

  /** `value.start`: throws on null or undefined; an object without `start`, or a primitive, reads undefined. */
  function StartOf(value: Value): Result<Value, EncodeError>
  {
    match value
    case Undefined => Failure(NullishDateInput)
    case Null => Failure(NullishDateInput)
    case Obj(fields) => Success(Field(fields, "start"))
    case _ => Success(Undefined)
  }

  /**
   * `getNotionDateProperty`: `start` is `value.start?.toDateString() ?? ''`
   * and, as written, `end` is `value.start?.toDateString()` as well. A
   * nullish input throws on `.start`; a `start` that is present but not a
   * `Date` throws on `.toDateString`.
   */
  function GetNotionDateProperty(value: Value, toDateString: JsDate -> string): (r: Result<PropertyPayload, EncodeError>)
    ensures r.Success? ==> r.value.DatePayload?
    ensures r.Success? ==> (r.value.end == Some(r.value.start)) || (r.value.start == "" && r.value.end.None?)
    ensures r == Failure(NullishDateInput) <==> value.Undefined? || value.Null?
    ensures value.Obj? && Field(value.fields, "start").DateObj? ==>
              var d := Field(value.fields, "start").date;
              r == Success(DatePayload(toDateString(d), Some(toDateString(d))))
    ensures value.Obj? && (Field(value.fields, "start").Undefined? || Field(value.fields, "start").Null?) ==>
              r == Success(DatePayload("", None))
    ensures !value.Obj? && !value.Undefined? && !value.Null? ==> r == Success(DatePayload("", None))
    ensures r == Failure(NotADate) <==>
              value.Obj? && !(Field(value.fields, "start").Undefined? || Field(value.fields, "start").Null?
                              || Field(value.fields, "start").DateObj?)
  {
    var start :- StartOf(value);
    match start
    case Undefined => Success(DatePayload("", None))
    case Null => Success(DatePayload("", None))
    case DateObj(d) => Success(DatePayload(toDateString(d), Some(toDateString(d))))
    case _ => Failure(NotADate)
  }

  /** `getNotionMultiSelectProperty`: one `{name}` per input element; `.map` throws on a non-array. */
  function GetNotionMultiSelectProperty(value: Value): (r: Result<PropertyPayload, EncodeError>)
    ensures r.Success? <==> value.Arr?
    ensures r.Success? ==>
              r.value.MultiSelectPayload? && |r.value.multiSelect| == |value.items|
              && forall i :: 0 <= i < |value.items| ==> r.value.multiSelect[i] == value.items[i]
    ensures r.Failure? ==> r.error == NotAnArray
  {
    match value
    case Arr(items) => Success(MultiSelectPayload(items))
    case _ => Failure(NotAnArray)
  }

  /** `getNotionProperty`: the payload builder chosen by the schema's declared kind. */
  function GetNotionProperty(db: Database, propName: string, value: Value, toDateString: JsDate -> string): Result<PropertyPayload, EncodeError>
  {
    match SchemaOf(db, propName)
    case None => Failure(UnknownProperty(propName))
    case Some(schema) =>
      match schema.kind
      case TitleKind => Success(GetNotionTitleValue(value))
      case RichTextKind => Success(GetNotionRichTextValue(value))
      case NumberKind => Success(NumberPayload(value))
      case DateKind => GetNotionDateProperty(value, toDateString)
      case PhoneNumberKind => Success(PhoneNumberPayload(value))
      case UrlKind => Success(UrlPayload(value))
      case CheckboxKind => Success(CheckboxPayload(value))
      case MultiSelectKind => GetNotionMultiSelectProperty(value)
      case SelectKind => Success(SelectPayload(value))
      case EmailKind => Success(EmailPayload(value))
      case _ => Failure(UnsupportedOrReadonly(schema.kind))
  }

  /**
   * The payload's kind is the schema's declared kind, whatever the input
   * value; an unwritable kind throws for every input value; a property the
   * schema lacks throws too.
   */
  lemma KindChosenBySchema(db: Database, propName: string, value: Value, toDateString: JsDate -> string)
    ensures var r := GetNotionProperty(db, propName, value, toDateString);
            && (r.Success? ==> SchemaOf(db, propName).Some? && PayloadKind(r.value) == SchemaOf(db, propName).value.kind)
            && (r.Failure? && r.error.UnsupportedOrReadonly? <==> SchemaOf(db, propName).Some? && !Writable(SchemaOf(db, propName).value.kind))
            && (SchemaOf(db, propName).None? <==> r == Failure(UnknownProperty(propName)))
  {
  }

  /** Two input values for the same property give payloads of the same kind. */
  lemma KindIndependentOfInput(db: Database, propName: string, v1: Value, v2: Value, toDateString: JsDate -> string)
    requires GetNotionProperty(db, propName, v1, toDateString).Success?
    requires GetNotionProperty(db, propName, v2, toDateString).Success?
    ensures PayloadKind(GetNotionProperty(db, propName, v1, toDateString).value)
         == PayloadKind(GetNotionProperty(db, propName, v2, toDateString).value)
  {
    KindChosenBySchema(db, propName, v1, toDateString);
    KindChosenBySchema(db, propName, v2, toDateString);
  }

  /**
   * What each builder writes: title and rich text carry the input as the
   * content of a single element; number, checkbox, url, email and phone
   * number pass it through; select wraps it as the option's name.
   */
  lemma PayloadCarriesInput(db: Database, propName: string, value: Value, toDateString: JsDate -> string)
    requires SchemaOf(db, propName).Some?
    ensures var kind := SchemaOf(db, propName).value.kind;
            var r := GetNotionProperty(db, propName, value, toDateString);
            && (kind == TitleKind ==>
                  r.Success? && |r.value.title| == 1 && r.value.title[0].content == value && r.value.title[0].inputType == Some("text"))
            && (kind == RichTextKind ==> r.Success? && |r.value.richText| == 1 && r.value.richText[0].content == value)
            && (kind == NumberKind ==> r == Success(NumberPayload(value)))
            && (kind == CheckboxKind ==> r == Success(CheckboxPayload(value)))
            && (kind == UrlKind ==> r == Success(UrlPayload(value)))
            && (kind == EmailKind ==> r == Success(EmailPayload(value)))
            && (kind == PhoneNumberKind ==> r == Success(PhoneNumberPayload(value)))
            && (kind == SelectKind ==> r == Success(SelectPayload(value)))
  {
  }

  /** As written, a date whose `start` is a Date gets that same date as its `end`, whatever its own `end` is. */
  lemma DateEndCopiesStart(d: JsDate, e: JsDate, toDateString: JsDate -> string)
    ensures GetNotionDateProperty(Obj(map["start" := DateObj(d), "end" := DateObj(e)]), toDateString)
         == Success(DatePayload(toDateString(d), Some(toDateString(d))))
    ensures GetNotionDateProperty(Obj(map["end" := DateObj(e)]), toDateString) == Success(DatePayload("", None))
  {
  }

  function Builder(toDateString: JsDate -> string): PageMapping.Builder
  {
    (db: Database, propName: string, value: Value) => GetNotionProperty(db, propName, value, toDateString)
  }

  /** `mapItemToNotionPage`: one payload per mapping entry, built from `input[typeName]`. */
  function MapItemToNotionPage(
    db: Database, properties: JsObjects.Entries<string>, input: map<string, Value>, toDateString: JsDate -> string
  ): Result<PageCreate, EncodeError>
  {
    PageMapping.PageFromItem(db, properties, input, Builder(toDateString))
  }

  /**
   * The mapping succeeds exactly when every entry's builder does, so a single
   * unwritable or unknown property fails it; on success the parent is the
   * database, the keys are the mapping's property names, each holds the
   * payload built from its application field, of the schema's kind.
   */
  lemma MapItemToNotionPageShape(
    db: Database, properties: JsObjects.Entries<string>, input: map<string, Value>, toDateString: JsDate -> string)
    ensures var r := MapItemToNotionPage(db, properties, input, toDateString);
            && (r.Success? <==> forall i :: 0 <= i < |properties| ==>
                  GetNotionProperty(db, properties[i].1, Field(input, properties[i].0), toDateString).Success?)
            && ((exists i :: 0 <= i < |properties| && SchemaOf(db, properties[i].1).Some?
                   && !Writable(SchemaOf(db, properties[i].1).value.kind)) ==> r.Failure?)
            && (r.Success? ==> r.value.parentDatabaseId == db.id && r.value.properties.Keys == JsObjects.ValueSet(properties))
            && (r.Success? ==>
                  forall i :: 0 <= i < |properties| && (forall j :: i < j < |properties| ==> properties[j].1 != properties[i].1)
                    ==> r.value.properties[properties[i].1] == GetNotionProperty(db, properties[i].1, Field(input, properties[i].0), toDateString).value
                        && PayloadKind(r.value.properties[properties[i].1]) == SchemaOf(db, properties[i].1).value.kind)
  {
    var build := Builder(toDateString);
    PageMapping.PageFromItemShape(db, properties, input, build);
    forall i | 0 <= i < |properties|
      ensures PageMapping.BuildAt(db, properties, input, build, i)
           == GetNotionProperty(db, properties[i].1, Field(input, properties[i].0), toDateString)
    {
    }
    forall i | 0 <= i < |properties|
      ensures GetNotionProperty(db, properties[i].1, Field(input, properties[i].0), toDateString).Success? ==>
                SchemaOf(db, properties[i].1).Some?
                && PayloadKind(GetNotionProperty(db, properties[i].1, Field(input, properties[i].0), toDateString).value)
                   == SchemaOf(db, properties[i].1).value.kind
    {
      KindChosenBySchema(db, properties[i].1, Field(input, properties[i].0), toDateString);
    }
  }
}
