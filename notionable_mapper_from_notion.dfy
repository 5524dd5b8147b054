/**
 * The newest decoder from Notion pages to application items: a closed switch
 * over the property-value tags, with formulas and rollups dispatched on their
 * own sub-tags and rollup arrays decoded element by element.
 */
module NotionableMapperFromNotion {
  import opened Wrappers
  import opened JsRuntime
  import opened JsStrings
  import JsObjects
  import opened NotionApi
  import PageMapping

  /** The value every tag outside the switch decodes to. */
  const UnknownValueType: string := "unknown value type"

  function PlainTexts(fragments: seq<RichText>): (r: seq<string>)
    ensures |r| == |fragments|
    ensures forall i :: 0 <= i < |fragments| ==> r[i] == fragments[i].plainText
  {
    seq(|fragments|, i requires 0 <= i < |fragments| => fragments[i].plainText)
  }

  /** `getTitleValueFromNotion`: reduces the fragments' plain text with `+`, starting from "". */
  function GetTitleValueFromNotion(title: seq<RichText>): string
  {
    ReduceConcat("", PlainTexts(title))
  }

  /** `getRichTextValueFromNotion`: the same reduction over rich-text fragments. */
  function GetRichTextValueFromNotion(richText: seq<RichText>): string
  {
    ReduceConcat("", PlainTexts(richText))
  }

  /**
   * Title and rich text decode to the fragments' plain text in order: the
   * result is as long as all fragments together, each fragment's text stands
   * at its offset, and no fragments give "".
   */
  lemma TextDecodesInOrder(fragments: seq<RichText>)
    ensures GetTitleValueFromNotion(fragments) == GetRichTextValueFromNotion(fragments) == Concat(PlainTexts(fragments))
    ensures fragments == [] ==> GetTitleValueFromNotion(fragments) == ""
    ensures |GetTitleValueFromNotion(fragments)| == TotalLength(PlainTexts(fragments))
    ensures forall i :: 0 <= i < |fragments| ==>
              var at := PartOffset(PlainTexts(fragments), i);
              at + |fragments[i].plainText| <= |GetTitleValueFromNotion(fragments)|
              && GetTitleValueFromNotion(fragments)[at .. at + |fragments[i].plainText|] == fragments[i].plainText
  {
    var parts := PlainTexts(fragments);
    ReduceConcatIsConcat("", parts);
    assert "" + Concat(parts) == Concat(parts);
    ConcatLength(parts);
    forall i | 0 <= i < |fragments|
      ensures PartOffset(parts, i) + |parts[i]| <= |Concat(parts)|
      ensures Concat(parts)[PartOffset(parts, i) .. PartOffset(parts, i) + |parts[i]|] == parts[i]
    {
      PartAt(parts, i);
    }
  }

  /** `multi_select.map(select => select.name)`. */
  function OptionNames(options: seq<SelectOption>): (r: seq<Value>)
    ensures |r| == |options|
    ensures forall i :: 0 <= i < |options| ==> r[i] == Str(options[i].name)
  {
    if options == [] then [] else [Str(options[0].name)] + OptionNames(options[1..])
  }

  /** `relation.map(rel => rel.id)`. */
  function RelationIds(relation: seq<PageReference>): (r: seq<Value>)
    ensures |r| == |relation|
    ensures forall i :: 0 <= i < |relation| ==> r[i] == Str(relation[i].id)
  {
    if relation == [] then [] else [Str(relation[0].id)] + RelationIds(relation[1..])
  }

  /** `people.map(user => user.id)`. */
  function UserIds(people: seq<User>): (r: seq<Value>)
    ensures |r| == |people|
    ensures forall i :: 0 <= i < |people| ==> r[i] == Str(people[i].id)
  {
    if people == [] then [] else [Str(people[0].id)] + UserIds(people[1..])
  }

  /** The select object exactly as the API returned it. */
  function SelectObject(select: Option<SelectOption>): Value
  {
    match select
    case None => Null
    case Some(o) => Obj(map["id" := Str(o.id), "name" := Str(o.name), "color" := Str(o.color)])
  }

  function NumberOrNull(n: Option<real>): Value
  {
    match n
    case None => Null
    case Some(x) => Num(x)
  }

  function StringOrNull(s: Option<string>): Value
  {
    match s
    case None => Null
    case Some(x) => Str(x)
  }

  /**
   * `getDateValueFromNotion`: null stays null; otherwise `start` is always
   * present and `end` only when the API's `end` is a non-empty string.
   */
  function GetDateValueFromNotion(date: Option<DateRange>): (r: Value)
    ensures date.None? <==> r == Null
    ensures date.Some? ==>
              && r.Obj?
              && r.fields.Keys <= {"start", "end"}
              && "start" in r.fields && r.fields["start"] == DateObj(JsDate(date.value.start))
              && ("end" in r.fields <==> date.value.end.Some? && date.value.end.value != "")
              && ("end" in r.fields ==> r.fields["end"] == DateObj(JsDate(date.value.end.value)))
  {
    match date
    case None => Null
    case Some(d) =>
      var start := map["start" := DateObj(JsDate(d.start))];
      var end := if d.end.Some? && Truthy(Str(d.end.value)) then map["end" := DateObj(JsDate(d.end.value))] else map[];
      Obj(start + end)
  }

  /** `{name: file.name, url: file.external}`: `url` holds the `{url}` object of an external file, else undefined. */
  function FileEntry(file: FileObject): Value
  {
    var external := match file.external
      case None => Undefined
      case Some(u) => Obj(map["url" := Str(u)]);
    Obj(map["name" := Str(file.name), "url" := external])
  }

  /** `getFileValueFromNotion`: one `{name, url}` object per file, in order. */
  function GetFileValueFromNotion(files: seq<FileObject>): (r: seq<Value>)
    ensures |r| == |files|
    ensures forall i :: 0 <= i < |files| ==>
              r[i].Obj? && r[i].fields.Keys == {"name", "url"} && r[i].fields["name"] == Str(files[i].name)
              && (r[i].fields["url"] == Undefined <==> files[i].external.None?)
              && (files[i].external.Some? ==> r[i].fields["url"] == Obj(map["url" := Str(files[i].external.value)]))
  {
    if files == [] then [] else [FileEntry(files[0])] + GetFileValueFromNotion(files[1..])
  }

  /** `getFormulaValueFromNotion`: dispatches on the formula's own `type`; a type outside the switch gives undefined. */
  function GetFormulaValueFromNotion(formula: FormulaResult): (r: Value)
    ensures formula.FormulaBoolean? ==> r == Bool(formula.boolean)
    ensures formula.FormulaDate? ==> r == GetDateValueFromNotion(formula.date.date)
    ensures formula.FormulaNumber? ==> r == NumberOrNull(formula.number)
    ensures formula.FormulaString? ==> r == StringOrNull(formula.str)
    ensures formula.FormulaOther? ==> r == Undefined
  {
    match formula
    case FormulaBoolean(b) => Bool(b)
    case FormulaDate(d) => GetDateValueFromNotion(d.date)
    case FormulaNumber(n) => NumberOrNull(n)
    case FormulaString(s) => StringOrNull(s)
    case FormulaOther(_) => Undefined
  }

  /** `getTypedValueFromNotion`: the closed switch over the property-value tag. */
  function GetTypedValueFromNotion(value: PropertyValue): Value
    decreases value
  {
    match value
    case TitleValue(t) => Str(GetTitleValueFromNotion(t))
    case RichTextValue(t) => Str(GetRichTextValueFromNotion(t))
    case NumberValue(n) => NumberOrNull(n)
    case SelectValue(s) => SelectObject(s)
    case MultiSelectValue(ms) => Arr(OptionNames(ms))
    case DateValue(d) => GetDateValueFromNotion(d)
    case RelationValue(rel) => Arr(RelationIds(rel))
    case PeopleValue(ps) => Arr(UserIds(ps))
    case CheckboxValue(c) => Bool(c)
    case UrlValue(u) => StringOrNull(u)
    case EmailValue(e) => StringOrNull(e)
    case PhoneNumberValue(p) => StringOrNull(p)
    case CreatedByValue(u) => Str(u.id)
    case CreatedTimeValue(t) => DateObj(JsDate(t))
    case FilesValue(fs) => Arr(GetFileValueFromNotion(fs))
    case FormulaValue(f) => GetFormulaValueFromNotion(f)
    case LastEditedByValue(u) => Str(u.id)
    case LastEditedTimeValue(t) => DateObj(JsDate(t))
    case RollupValue(r) => GetRollupValueFromNotion(r)
    case UnsupportedValue(_) => Str(UnknownValueType)
  }

  /** `getRollupValueFromNotion`: an array decodes element-wise with the same decoder; an absent date stays null. */
  function GetRollupValueFromNotion(rollup: RollupResult): Value
    decreases rollup
  {
    match rollup
    case RollupArray(values) => Arr(GetTypedValuesFromNotion(values))
    case RollupNumber(n) => NumberOrNull(n)
    case RollupDate(d) => if d.None? then Null else GetDateValueFromNotion(d.value.date)
    case RollupOther(_) => Undefined
  }

  /** `array.map(value => getTypedValueFromNotion(value))`. */
  function GetTypedValuesFromNotion(values: seq<PropertyValue>): (r: seq<Value>)
    ensures |r| == |values|
    ensures forall i :: 0 <= i < |values| ==> r[i] == GetTypedValueFromNotion(values[i])
    decreases values
  {
    if values == [] then []
    else [GetTypedValueFromNotion(values[0])] + GetTypedValuesFromNotion(values[1..])
  }

  /** `mapNotionPageToItem`: `{id: page.id, ...}` with one decoded field per page property. */
  function MapNotionPageToItem(page: Page, propNames: JsObjects.Entries<string>): map<string, Value>
  {
    PageMapping.ItemFromPage(page, propNames, GetTypedValueFromNotion)
  }

  /**
   * For an injective mapping that names every page property: the item has
   * `id` plus exactly the application names of the page's properties, each
   * holding that property's decoded value, and `id` is the page's id unless an
   * application name is "id".
   */
  lemma MapNotionPageToItemFields(page: Page, propNames: JsObjects.Entries<string>)
    requires JsObjects.DistinctKeys(propNames) && JsObjects.DistinctValues(propNames)
    requires JsObjects.DistinctKeys(page.properties)
    requires forall i :: 0 <= i < |page.properties| ==> page.properties[i].0 in JsObjects.ValueSet(propNames)
    ensures var item := MapNotionPageToItem(page, propNames);
            var props := page.properties;
            && (forall key :: key in item <==>
                  key == "id" || exists i, j :: 0 <= i < |props| && 0 <= j < |propNames| && propNames[j].1 == props[i].0 && key == propNames[j].0)
            && (forall i, j :: 0 <= i < |props| && 0 <= j < |propNames| && propNames[j].1 == props[i].0
                  ==> item[propNames[j].0] == GetTypedValueFromNotion(props[i].1))
            && ((forall j :: 0 <= j < |propNames| ==> propNames[j].0 != "id") ==> item["id"] == Str(page.id))
  {
    PageMapping.ItemFromInjectiveMapping(page, propNames, GetTypedValueFromNotion);
  }

  /**
   * The decoder yields `undefined` exactly for a formula or rollup whose own
   * sub-tag is outside its switch; every other property, unknown tags
   * included, decodes to a defined value.
   */
  lemma UndefinedOnlyForUnknownSubTags(value: PropertyValue)
    ensures GetTypedValueFromNotion(value) == Undefined <==>
              (value.FormulaValue? && value.formula.FormulaOther?) || (value.RollupValue? && value.rollup.RollupOther?)
  {
  }

  /** Any tag outside the switch decodes to the sentinel string. */
  lemma UnknownTagGivesSentinel(valueType: string)
    requires !ListedValueType(valueType)
    ensures GetTypedValueFromNotion(UnsupportedValue(valueType)) == Str("unknown value type")
  {
  }

  /**
   * The list-valued kinds keep order and length: multi_select gives the option
   * names, relation and people the ids, files one object per file, and a
   * rollup array one decoded value per element.
   */
  lemma ListKindsPreserveOrder(value: PropertyValue)
    ensures value.MultiSelectValue? ==> var r := GetTypedValueFromNotion(value);
              r.Arr? && |r.items| == |value.multiSelect|
              && forall i :: 0 <= i < |value.multiSelect| ==> r.items[i] == Str(value.multiSelect[i].name)
    ensures value.RelationValue? ==> var r := GetTypedValueFromNotion(value);
              r.Arr? && |r.items| == |value.relation|
              && forall i :: 0 <= i < |value.relation| ==> r.items[i] == Str(value.relation[i].id)
    ensures value.PeopleValue? ==> var r := GetTypedValueFromNotion(value);
              r.Arr? && |r.items| == |value.people|
              && forall i :: 0 <= i < |value.people| ==> r.items[i] == Str(value.people[i].id)
    ensures value.FilesValue? ==> var r := GetTypedValueFromNotion(value);
              r.Arr? && |r.items| == |value.files|
              && forall i :: 0 <= i < |value.files| ==> r.items[i].Obj? && r.items[i].fields["name"] == Str(value.files[i].name)
    ensures value.RollupValue? && value.rollup.RollupArray? ==> var r := GetTypedValueFromNotion(value);
              r.Arr? && |r.items| == |value.rollup.elements|
              && forall i :: 0 <= i < |value.rollup.elements| ==> r.items[i] == GetTypedValueFromNotion(value.rollup.elements[i])
  {
  }

  /**
   * A formula result decodes like the property of its own type: a boolean
   * like a checkbox, a date like a date property, a number like a number
   * property, a string like a url, e-mail or phone number; a type the switch
   * does not list gives undefined.
   */
  lemma FormulaDecodesLikeProperty(formula: FormulaResult)
    ensures formula.FormulaBoolean? ==>
              GetTypedValueFromNotion(FormulaValue(formula)) == GetTypedValueFromNotion(CheckboxValue(formula.boolean))
    ensures formula.FormulaDate? ==>
              GetTypedValueFromNotion(FormulaValue(formula)) == GetTypedValueFromNotion(DateValue(formula.date.date))
    ensures formula.FormulaNumber? ==>
              GetTypedValueFromNotion(FormulaValue(formula)) == GetTypedValueFromNotion(NumberValue(formula.number))
    ensures formula.FormulaString? ==>
              GetTypedValueFromNotion(FormulaValue(formula)) == GetTypedValueFromNotion(PhoneNumberValue(formula.str))
    ensures formula.FormulaOther? <==> GetTypedValueFromNotion(FormulaValue(formula)) == Undefined
  {
  }

  /** A rollup date that is absent stays null, a present one decodes like a date property. */
  lemma RollupDateDecodesLikeDate(date: Option<DateProperty>)
    ensures date.None? ==> GetTypedValueFromNotion(RollupValue(RollupDate(date))) == Null
    ensures date.Some? ==> GetTypedValueFromNotion(RollupValue(RollupDate(date))) == GetTypedValueFromNotion(DateValue(date.value.date))
  {
  }
}
