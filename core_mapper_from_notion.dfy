/**
 * The first decoder from Notion pages to application items: only title and
 * rich-text properties are decoded, every other property becomes
 * `undefined`.
 */
module CoreMapperFromNotion {
  import opened JsRuntime
  import opened JsStrings
  import JsObjects
  import opened NotionApi
  import PageMapping
  import Decoder = NotionableMapperFromNotion

  /** `getTypedValueFromNotion`: a switch with a title and a rich-text case and no default. */
  function GetTypedValueFromNotion(value: PropertyValue): Value
  {
    match value
    case TitleValue(t) => Str(ReduceConcat("", Decoder.PlainTexts(t)))
    case RichTextValue(t) => Str(ReduceConcat("", Decoder.PlainTexts(t)))
    case _ => Undefined
  }

  /**
   * Text properties decode to their fragments' plain text joined in order
   * (the same text the newest decoder gives); every other property, whatever
   * its tag, decodes to `undefined`.
   */
  lemma DecodesTextOnly(value: PropertyValue)
    ensures GetTypedValueFromNotion(value) != Undefined <==> value.TitleValue? || value.RichTextValue?
    ensures value.TitleValue? ==> GetTypedValueFromNotion(value) == Str(Concat(Decoder.PlainTexts(value.title)))
    ensures value.RichTextValue? ==> GetTypedValueFromNotion(value) == Str(Concat(Decoder.PlainTexts(value.richText)))
    ensures value.TitleValue? || value.RichTextValue? ==>
              GetTypedValueFromNotion(value) == Decoder.GetTypedValueFromNotion(value)
  {
    match value
    case TitleValue(t) => Decoder.TextDecodesInOrder(t);
    case RichTextValue(t) => Decoder.TextDecodesInOrder(t);
    case _ =>
  }

  /** `mapNotionPageToItem`: `{id: page.id, ...}` with one decoded field per page property. */
  function MapNotionPageToItem(page: Page, propNames: JsObjects.Entries<string>): map<string, Value>
  {
    PageMapping.ItemFromPage(page, propNames, GetTypedValueFromNotion)
  }

  /**
   * For an injective mapping that names every page property: the item has
   * `id` plus exactly the application names of the page's properties; a
   * text property's name holds its joined plain text, any other property's
   * name holds `undefined`; and `id` is the page's id unless an application
   * name is "id".
   */
  lemma MapNotionPageToItemFields(page: Page, propNames: JsObjects.Entries<string>)
    requires JsObjects.DistinctKeys(propNames) && JsObjects.DistinctValues(propNames)
    requires JsObjects.DistinctKeys(page.properties)
    requires forall i :: 0 <= i < |page.properties| ==> page.properties[i].0 in JsObjects.ValueSet(propNames)
    ensures var item := MapNotionPageToItem(page, propNames);
            var props := page.properties;
            && (forall key :: key in item <==>
                  key == "id" || exists i, j :: 0 <= i < |props| && 0 <= j < |propNames| && propNames[j].1 == props[i].0 && key == propNames[j].0)
            && (forall i, j :: 0 <= i < |props| && 0 <= j < |propNames| && propNames[j].1 == props[i].0
                  ==> (item[propNames[j].0] == Undefined <==> !props[i].1.TitleValue? && !props[i].1.RichTextValue?))
            && (forall i, j :: 0 <= i < |props| && 0 <= j < |propNames| && propNames[j].1 == props[i].0 && props[i].1.TitleValue?
                  ==> item[propNames[j].0] == Str(Concat(Decoder.PlainTexts(props[i].1.title))))
            && ((forall j :: 0 <= j < |propNames| ==> propNames[j].0 != "id") ==> item["id"] == Str(page.id))
  {
    var props := page.properties;
    PageMapping.ItemFromInjectiveMapping(page, propNames, GetTypedValueFromNotion);
    forall i | 0 <= i < |props|
      ensures GetTypedValueFromNotion(props[i].1) != Undefined <==> props[i].1.TitleValue? || props[i].1.RichTextValue?
      ensures props[i].1.TitleValue? ==> GetTypedValueFromNotion(props[i].1) == Str(Concat(Decoder.PlainTexts(props[i].1.title)))
    {
      DecodesTextOnly(props[i].1);
    }
  }
}
