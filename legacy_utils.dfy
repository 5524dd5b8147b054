/**
 * The helpers of the oldest generation: case- and padding-insensitive text
 * comparison, the database title with its `'unknown'` fallback, and the type
 * name derived from it (the middle generation's type generator derives its
 * type name the same way).
 */
module LegacyUtils {
  import opened Wrappers
  import opened JsRuntime
  import opened JsStrings
  import opened NotionApi
  import opened TypeNaming

  /** `compareText`: equal once both sides are trimmed and lower-cased. */
  predicate CompareText(text1: string, text2: string)
  {
    ToLowerCase(Trim(text1)) == ToLowerCase(Trim(text2))
  }

  /** `compareText` is an equivalence: reflexive, symmetric and transitive. */
  lemma CompareTextIsEquivalence(a: string, b: string, c: string)
    ensures CompareText(a, a)
    ensures CompareText(a, b) ==> CompareText(b, a)
    ensures CompareText(a, b) && CompareText(b, c) ==> CompareText(a, c)
  {
  }

  lemma LowerCaseIdempotent(s: string)
    ensures ToLowerCase(ToLowerCase(s)) == ToLowerCase(s)
  {
  }

  /**
   * Whitespace around either text and upper-case letters anywhere in it do
   * not change the comparison: a text matches its own padded or lower-cased
   * forms.
   */
  lemma CompareTextIgnoresPaddingAndCase(before: string, s: string, after: string, t: string)
    requires AllWhitespace(before) && AllWhitespace(after)
    ensures CompareText(before + s + after, t) == CompareText(s, t)
    ensures CompareText(ToLowerCase(s), s)
  {
    TrimIgnoresPadding(before, s, after);
    TrimToLowerCommute(s);
    LowerCaseIdempotent(Trim(s));
  }

  /** Texts with different trimmed lengths never match. */
  lemma CompareTextNeedsSameLength(a: string, b: string)
    requires |Trim(a)| != |Trim(b)|
    ensures !CompareText(a, b)
  {
    assert |ToLowerCase(Trim(a))| != |ToLowerCase(Trim(b))|;
  }

  /**
   * `getDatabaseTitle`: the plain text of the first text fragment of the
   * title, or `'unknown'` when the title has none.
   */
  function GetDatabaseTitle(title: seq<RichText>): (r: string)
    ensures FirstTextFragment(title).None? ==> r == "unknown"
    ensures FirstTextFragment(title).Some? ==>
              var i := FirstTextFragment(title).value;
              i < |title| && title[i].kind == TextFragment && r == title[i].plainText
              && forall j :: 0 <= j < i ==> title[j].kind != TextFragment
  {
    match FirstTextFragment(title)
    case None => "unknown"
    case Some(i) => title[i].plainText
  }

  /** `generateTypeName`: the title trimmed, camelCased, first letter upper-cased, one trailing `s` dropped. */
  function GenerateTypeName(db: Database, lodash: Lodash): string
  {
    DropTrailingS(lodash.upperFirst(lodash.camelCase(Trim(GetDatabaseTitle(db.title)))))
  }

  /** A title whose normalised name is `<stem>s` names the type `<stem>`, even when `<stem>` itself ends in `s`. */
  lemma PluralTitleNamesSingular(db: Database, lodash: Lodash, stem: string)
    requires lodash.upperFirst(lodash.camelCase(Trim(GetDatabaseTitle(db.title)))) == stem + "s"
    ensures GenerateTypeName(db, lodash) == stem
  {
    DropsExactlyOneS(stem);
  }

  /** A title without text fragments gives the type name of "unknown". */
  lemma UntitledTypeName(db: Database, lodash: Lodash)
    requires FirstTextFragment(db.title).None?
    ensures GenerateTypeName(db, lodash) == DropTrailingS(lodash.upperFirst(lodash.camelCase("unknown")))
  {
    TrimUnchanged("unknown");
  }

  /**
   * The type name depends only on the first text fragment's text with its
   * padding removed: a database whose title is that text, padded, gets the
   * same name.
   */
  lemma TypeNameFromFirstText(db: Database, lodash: Lodash, before: string, after: string)
    requires AllWhitespace(before) && AllWhitespace(after)
    requires FirstTextFragment(db.title).Some?
    ensures var text := db.title[FirstTextFragment(db.title).value].plainText;
            var padded := db.(title := [RichText(TextFragment, before + text + after)]);
            GenerateTypeName(padded, lodash) == GenerateTypeName(db, lodash)
  {
    var text := db.title[FirstTextFragment(db.title).value].plainText;
    var padded := db.(title := [RichText(TextFragment, before + text + after)]);
    assert FirstTextFragment(padded.title) == Some(0);
    TrimIgnoresPadding(before, text, after);
  }
}
