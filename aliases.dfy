/** The parser that turns the output of `llm aliases` into the model list
    (src/main.rs:392-405). The output arrives already split into lines. */
module Aliases {
  import opened Entities
  import opened Text

  /** One line: kept only when splitting on ':' yields exactly two pieces,
      each trimmed. */
  function ParseAliasLine(line: string): (r: Option<ModelInfo>)
    ensures r.Some? <==> Occurrences(line, ':') == 1
    ensures r.Some? ==> Printable(r.value)
  {
    var parts := Split(line, ':');
    if |parts| == 2 then Some(ModelInfo(Trim(parts[0]), Trim(parts[1]))) else None
  }

  /** A line is kept exactly when it holds one ':'; the alias is then the
      trimmed text before it and the full name the trimmed text after it. */
  lemma ParseAliasLineAtColon(line: string)
    ensures Occurrences(line, ':') == 1 ==> ':' in line
    ensures ParseAliasLine(line)
            == if Occurrences(line, ':') == 1
               then Some(ModelInfo(Trim(line[..IndexOf(line, ':')]), Trim(line[IndexOf(line, ':') + 1..])))
               else None
  {
    if Occurrences(line, ':') == 1 {
      SplitAtOnlySeparator(line, ':');
    }
  }

  /** `lines().filter_map(..).collect()` */
  function LoadModels(lines: seq<string>): (models: seq<ModelInfo>)
    ensures |models| <= |lines|
    ensures forall k :: 0 <= k < |models| ==> Printable(models[k])
  {
    if lines == [] then []
    else
      match ParseAliasLine(lines[0])
      case Some(m) => [m] + LoadModels(lines[1..])
      case None => LoadModels(lines[1..])
  }

  /** The parser works line by line and keeps the order of the lines. */
  lemma {:induction false} LoadModelsAppend(a: seq<string>, b: seq<string>)
    ensures LoadModels(a + b) == LoadModels(a) + LoadModels(b)
  {
    if a == [] {
      assert a + b == b;
    } else {
      assert (a + b)[0] == a[0];
      assert (a + b)[1..] == a[1..] + b;
      LoadModelsAppend(a[1..], b);
    }
  }

  /** One line yields its parse when it holds exactly one ':', and
      nothing otherwise; with LoadModelsAppend this fixes the whole list. */
  lemma LoadModelsOneLine(line: string)
    ensures LoadModels([line]) == (if Occurrences(line, ':') == 1 then [ParseAliasLine(line).value] else [])
  {
    assert [line][1..] == [];
  }

  /** The line format `llm aliases` prints: `alias: full-name`. */
  function AliasLine(m: ModelInfo): string {
    m.alias + ": " + m.fullName
  }

  predicate Printable(m: ModelInfo) {
    ':' !in m.alias && ':' !in m.fullName && Unpadded(m.alias) && Unpadded(m.fullName)
  }

  lemma ParseAliasLineRoundTrip(m: ModelInfo)
    requires Printable(m)
    ensures ParseAliasLine(AliasLine(m)) == Some(m)
  {
    assert AliasLine(m) == m.alias + [':'] + ([' '] + m.fullName);
    SplitAroundSeparator(m.alias, [' '] + m.fullName, ':');
    TrimLeadingBlank(m.fullName);
  }

  function AliasLines(ms: seq<ModelInfo>): (lines: seq<string>)
    ensures |lines| == |ms|
  {
    if ms == [] then [] else [AliasLine(ms[0])] + AliasLines(ms[1..])
  }

  lemma LoadModelsPrintedFirst(m: ModelInfo, rest: seq<string>)
    requires Printable(m)
    ensures LoadModels([AliasLine(m)] + rest) == [m] + LoadModels(rest)
  {
    ParseAliasLineRoundTrip(m);
    assert ([AliasLine(m)] + rest)[1..] == rest;
  }

  /** Parsing the printed form of a model list gives the list back. */
  lemma {:induction false} LoadModelsRoundTrip(ms: seq<ModelInfo>)
    requires forall m :: m in ms ==> Printable(m)
    ensures LoadModels(AliasLines(ms)) == ms
  {
    if ms == [] {
      assert AliasLines(ms) == [];
    } else {
      calc {
        LoadModels(AliasLines(ms));
        { assert AliasLines(ms) == [AliasLine(ms[0])] + AliasLines(ms[1..]); }
        LoadModels([AliasLine(ms[0])] + AliasLines(ms[1..]));
        { LoadModelsPrintedFirst(ms[0], AliasLines(ms[1..])); }
        [ms[0]] + LoadModels(AliasLines(ms[1..]));
        { assert forall m :: m in ms[1..] ==> m in ms;
          LoadModelsRoundTrip(ms[1..]); }
        [ms[0]] + ms[1..];
        ms;
      }
    }
  }
}
