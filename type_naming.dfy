/**
 * Text shared by every generation of the type generator: the singularising
 * step of `generateTypeName` and the `"\n\t"`-joined declaration bodies.
 */
module TypeNaming {
  import opened JsStrings

  /** `typeName.endsWith('s') ? typeName.slice(0, -1) : typeName`. */
  function DropTrailingS(typeName: string): (r: string)
    ensures |r| <= |typeName| && r == typeName[..|r|]
    ensures |typeName| - |r| == (if EndsWith(typeName, "s") then 1 else 0)
  {
    if EndsWith(typeName, "s") then typeName[..|typeName| - 1] else typeName
  }

  /** Exactly one trailing `s` goes, even when the remaining name ends in `s` too. */
  lemma DropsExactlyOneS(stem: string)
    ensures DropTrailingS(stem + "s") == stem
  {
    assert (stem + "s")[..|stem|] == stem;
  }

  /** A name not ending in `s` is kept as it is. */
  lemma KeepsOtherNames(typeName: string)
    requires typeName == "" || typeName[|typeName| - 1] != 's'
    ensures DropTrailingS(typeName) == typeName
  {
  }

  /** Each line prefixed by the `"\n\t"` separator, as the declaration reductions append them. */
  function Separated(lines: seq<string>): (r: seq<string>)
    ensures |r| == |lines|
    ensures forall i :: 0 <= i < |lines| ==> r[i] == "\n\t" + lines[i]
  {
    seq(|lines|, i requires 0 <= i < |lines| => "\n\t" + lines[i])
  }

  /** `lines.reduce((acc, line) => `${acc}\n\t${line}`, init)`. */
  function JoinFrom(init: string, lines: seq<string>): string
  {
    ReduceConcat(init, Separated(lines))
  }

  /** Reducing from `"\n\t" + first` is the same as putting `first` on the first line. */
  lemma JoinFromFirstLine(first: string, lines: seq<string>)
    ensures JoinFrom("\n\t" + first, lines) == Concat(Separated([first] + lines))
  {
    ReduceConcatIsConcat("\n\t" + first, Separated(lines));
    assert Separated([first] + lines) == ["\n\t" + first] + Separated(lines);
    assert Separated([first] + lines)[1..] == Separated(lines);
  }

  /** Reducing from the `id: string` line puts `id` first, before every property line. */
  lemma IdLineFirst(lines: seq<string>)
    ensures JoinFrom("\n\tid: string", lines) == Concat(Separated(["id: string"] + lines))
  {
    assert "\n\t" + "id: string" == "\n\tid: string";
    JoinFromFirstLine("id: string", lines);
  }

  /** Reducing from "" is just the lines, each after its separator. */
  lemma JoinFromEmpty(lines: seq<string>)
    ensures JoinFrom("", lines) == Concat(Separated(lines))
  {
    ReduceConcatIsConcat("", Separated(lines));
    assert "" + Concat(Separated(lines)) == Concat(Separated(lines));
  }

  /** Reducing from any start text is that text followed by the reduction from "". */
  lemma JoinFromPrefix(init: string, lines: seq<string>)
    ensures JoinFrom(init, lines) == init + JoinFrom("", lines)
  {
    ReduceConcatIsConcat(init, Separated(lines));
    JoinFromEmpty(lines);
  }

  /**
   * `${opening}${body}\n}`.trim(): the opening line starts with a letter and
   * the text ends with `}`, so `trim` changes nothing.
   */
  function TrimmedDeclaration(opening: string, body: string): (r: string)
    requires opening != "" && !IsWhitespace(opening[0])
    ensures r == opening + body + "\n}"
    ensures StartsWith(r, opening) && EndsWith(r, "}")
  {
    var text := opening + body + "\n}";
    assert text[|text| - 1] == '}';
    assert text[..|opening|] == opening;
    assert text[|text| - 1..] == "}";
    TrimUnchanged(text);
    Trim(text)
  }

  /** The files `generateTypeFiles` writes, as (file name, text) pairs in writing order, and the type name it returns. */
  datatype GeneratedFiles = GeneratedFiles(typeName: string, files: seq<(string, string)>)

  /** The property types the generators declare. */
  datatype TsType =
    | StringType
    | BooleanType
    | DateType
    | DateRangeType
    | NumberType
    | StringListType
    | FileListType
    | FormulaType
    | RollupType

  /** The text each type is written as. */
  function Render(t: TsType): string
  {
    match t
    case StringType => "string"
    case BooleanType => "boolean"
    case DateType => "Date"
    case DateRangeType => "{ start: Date, end?: Date }"
    case NumberType => "number"
    case StringListType => "string[]"
    case FileListType => "{ name: string, url: string | undefined }[]"
    case FormulaType => "string | boolean | number | { start?: Date, end?: Date } | null | undefined"
    case RollupType => "any[] | number | { start?: Date | undefined, end?: Date | undefined } | null | undefined"
  }
}
