/**
 * The Notion API's wire shapes that the mappers and the type generator read
 * and write: the tagged property values of a page, a database's schema, and
 * the page-creation payload.
 */
module NotionApi {
  import opened Wrappers
  import opened JsRuntime
  import JsObjects

  /** The `type` tag of a rich-text fragment. */
  datatype RichTextKind = TextFragment | MentionFragment | EquationFragment

  /** A rich-text fragment; `plainText` is the text the server fills in. */
  datatype RichText = RichText(kind: RichTextKind, plainText: string)

  datatype SelectOption = SelectOption(id: string, name: string, color: string)

  datatype User = User(id: string, name: Option<string>)

  /** A reference to another page in a relation. */
  datatype PageReference = PageReference(id: string)

  /** The `{start, end}` object of a date property; `end` may be null. */
  datatype DateRange = DateRange(start: string, end: Option<string>)

  /** A date property object; its `date` field is null when no date is set. */
  datatype DateProperty = DateProperty(date: Option<DateRange>)

  /** A file: `external` holds `{url}` for an external file and is absent for an uploaded one. */
  datatype FileObject = FileObject(name: string, external: Option<string>)

  /** The result of a formula, tagged by its own `type`. */
  datatype FormulaResult =
    | FormulaBoolean(boolean: bool)
    | FormulaDate(date: DateProperty)
    | FormulaNumber(number: Option<real>)
    | FormulaString(str: Option<string>)
    | FormulaOther(formulaType: string)

  /** The result of a rollup, tagged by its own `type`; an `array` rollup holds property values. */
  datatype RollupResult =
    | RollupArray(elements: seq<PropertyValue>)
    | RollupNumber(number: Option<real>)
    | RollupDate(date: Option<DateProperty>)
    | RollupOther(rollupType: string)

  /** A page's property value, a union tagged by `type`. */
  datatype PropertyValue =
    | TitleValue(title: seq<RichText>)
    | RichTextValue(richText: seq<RichText>)
    | NumberValue(number: Option<real>)
    | SelectValue(select: Option<SelectOption>)
    | MultiSelectValue(multiSelect: seq<SelectOption>)
    | DateValue(date: Option<DateRange>)
    | RelationValue(relation: seq<PageReference>)
    | PeopleValue(people: seq<User>)
    | CheckboxValue(checkbox: bool)
    | UrlValue(url: Option<string>)
    | EmailValue(email: Option<string>)
    | PhoneNumberValue(phoneNumber: Option<string>)
    | CreatedByValue(createdBy: User)
    | CreatedTimeValue(createdTime: string)
    | FilesValue(files: seq<FileObject>)
    | FormulaValue(formula: FormulaResult)
    | LastEditedByValue(lastEditedBy: User)
    | LastEditedTimeValue(lastEditedTime: string)
    | RollupValue(rollup: RollupResult)
    | UnsupportedValue(valueType: string)

  /**
   * The property-value tags the union lists, each of which has its own
   * constructor above; `UnsupportedValue` stands for any other tag.
   */
  predicate ListedValueType(valueType: string)
  {
    valueType in {"title", "rich_text", "number", "select", "multi_select", "date", "relation", "people",
                  "checkbox", "url", "email", "phone_number", "created_by", "created_time", "files",
                  "formula", "last_edited_by", "last_edited_time", "rollup"}
  }

  /** A page: its id and its properties keyed by property name, in order. */
  datatype Page = Page(id: string, properties: JsObjects.Entries<PropertyValue>)

  /** The `type` a database schema declares for a property. */
  datatype PropertyKind =
    | TitleKind | RichTextKind | NumberKind | SelectKind | MultiSelectKind | DateKind
    | PeopleKind | FilesKind | CheckboxKind | UrlKind | EmailKind | PhoneNumberKind
    | FormulaKind | RelationKind | RollupKind | CreatedTimeKind | CreatedByKind
    | LastEditedTimeKind | LastEditedByKind
    | OtherKind(kindName: string)

  /** The schema kind a page property value belongs to; `None` for a tag outside the union. */
  function ValueKind(value: PropertyValue): Option<PropertyKind>
  {
    match value
    case TitleValue(_) => Some(TitleKind)
    case RichTextValue(_) => Some(RichTextKind)
    case NumberValue(_) => Some(NumberKind)
    case SelectValue(_) => Some(SelectKind)
    case MultiSelectValue(_) => Some(MultiSelectKind)
    case DateValue(_) => Some(DateKind)
    case RelationValue(_) => Some(RelationKind)
    case PeopleValue(_) => Some(PeopleKind)
    case CheckboxValue(_) => Some(CheckboxKind)
    case UrlValue(_) => Some(UrlKind)
    case EmailValue(_) => Some(EmailKind)
    case PhoneNumberValue(_) => Some(PhoneNumberKind)
    case CreatedByValue(_) => Some(CreatedByKind)
    case CreatedTimeValue(_) => Some(CreatedTimeKind)
    case FilesValue(_) => Some(FilesKind)
    case FormulaValue(_) => Some(FormulaKind)
    case LastEditedByValue(_) => Some(LastEditedByKind)
    case LastEditedTimeValue(_) => Some(LastEditedTimeKind)
    case RollupValue(_) => Some(RollupKind)
    case UnsupportedValue(_) => None
  }

  /** A property of a database schema. */
  datatype PropertySchema = PropertySchema(id: string, kind: PropertyKind)

  /** A database: its id, its title fragments and its schema properties, in order. */
  datatype Database = Database(
    id: string,
    title: seq<RichText>,
    properties: JsObjects.Entries<PropertySchema>)

  /** `database.properties[propName]`; `None` is `undefined`. */
  function SchemaOf(db: Database, propName: string): Option<PropertySchema>
  {
    JsObjects.Get(db.properties, propName)
  }

  function PropertyNames(db: Database): (r: seq<string>)
    ensures |r| == |db.properties|
    ensures forall i :: 0 <= i < |r| ==> r[i] == db.properties[i].0
  {
    seq(|db.properties|, i requires 0 <= i < |db.properties| => db.properties[i].0)
  }

  /** `title.find(t => t.type === 'text')`: the index of the first plain-text fragment. */
  function FirstTextFragment(title: seq<RichText>): (r: Option<nat>)
    ensures r.Some? ==> r.value < |title| && title[r.value].kind == TextFragment
    ensures r.Some? ==> forall j :: 0 <= j < r.value ==> title[j].kind != TextFragment
    ensures r.None? <==> forall j :: 0 <= j < |title| ==> title[j].kind != TextFragment
    decreases |title|
  {
    if title == [] then None
    else if title[0].kind == TextFragment then Some(0)
    else match FirstTextFragment(title[1..])
      case None => None
      case Some(i) => Some(i + 1)
  }

  /** One rich-text element of a write payload; only the title builder sets its `type`. */
  datatype TextInput = TextInput(inputType: Option<string>, content: Value)

  /** The per-property payload sent when a page is created, one constructor per builder. */
  datatype PropertyPayload =
    | TitlePayload(title: seq<TextInput>)
    | RichTextPayload(richText: seq<TextInput>)
    | NumberPayload(number: Value)
    | DatePayload(start: string, end: Option<string>)
    | PhoneNumberPayload(phoneNumber: Value)
    | UrlPayload(url: Value)
    | CheckboxPayload(checkbox: Value)
    | MultiSelectPayload(multiSelect: seq<Value>)
    | SelectPayload(selectName: Value)
    | EmailPayload(email: Value)

  /** The property kind a payload writes. */
  function PayloadKind(p: PropertyPayload): PropertyKind
  {
    match p
    case TitlePayload(_) => TitleKind
    case RichTextPayload(_) => RichTextKind
    case NumberPayload(_) => NumberKind
    case DatePayload(_, _) => DateKind
    case PhoneNumberPayload(_) => PhoneNumberKind
    case UrlPayload(_) => UrlKind
    case CheckboxPayload(_) => CheckboxKind
    case MultiSelectPayload(_) => MultiSelectKind
    case SelectPayload(_) => SelectKind
    case EmailPayload(_) => EmailKind
  }

  /** The page-creation parameters: `{parent: {database_id}, properties}`. */
  datatype PageCreate = PageCreate(parentDatabaseId: string, properties: map<string, PropertyPayload>)

  /** Why building a page payload throws. */
  datatype EncodeError =
    | UnsupportedOrReadonly(kind: PropertyKind)   // the mapper's own `throw`
    | UnknownProperty(propName: string)           // reading `.type` of an undefined schema entry
    | NullishDateInput                            // reading `.start` of null or undefined
    | NotADate                                    // `start.toDateString` is not a function
    | NotAnArray                                  // `value.map` is not a function
}
