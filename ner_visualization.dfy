/**
 * The data handling of AI_02/ner_visualization.py (class NERVisualizer):
 * turning the rows of the NER results table into entity records, the colour
 * palette, the per-label grouping and counts behind the charts and the
 * report, and the most-common-entities ranking with its colours, with the
 * exceptions each of them raises on entity values it cannot handle.
 * Drawing, file output and the values of the confidence statistics
 * (floating point) are not modelled; each chart is represented by the data
 * it plots.
 */
module NerVisualization {
  import opened Base
  import opened Tally
  import opened Json

  // ---------------------------------------------------------------------------
  // parse_entities

  /** A cell of the "entities" column as pandas reads it. */
  datatype Cell = NaN | Chars(s: string) | Number

  /** One row of the table: its "text_id" and "entities" cells. */
  datatype CsvRow = CsvRow(textId: int, entities: Cell)

  /**
   * One entity record, with the defaults of `entity.get(key, default)`
   * filled in (`kind` holds the "label" key); the fields hold whatever JSON
   * value the entity had.
   */
  datatype Record = Record(text: Value, kind: Value, confidence: Value, textId: int)

  /** The record of an entity dict. */
  function RecordOf(entity: Value, textId: int): Record
  {
    Record(Get(entity, "text", Str("")), Get(entity, "label", Str("UNKNOWN")), Get(entity, "confidence", Num(0.0)), textId)
  }

  /** The number of leading dicts: where iterating the entities with `.get` raises, or their number. */
  function FirstNonObject(items: seq<Value>): (k: nat)
    ensures k <= |items|
    ensures forall i :: 0 <= i < k ==> items[i].Object?
    ensures k < |items| ==> !items[k].Object?
  {
    if items == [] || !items[0].Object? then 0
    else
      var k := FirstNonObject(items[1..]);
      assert forall i :: 1 <= i < k + 1 ==> items[i] == items[1..][i - 1];
      k + 1
  }

  /** The records of the objects among `items`, in order. */
  function ObjectRecords(items: seq<Value>, textId: int): seq<Record>
  {
    if items == [] then []
    else
      var n := |items| - 1;
      ObjectRecords(items[..n], textId) + (if items[n].Object? then [RecordOf(items[n], textId)] else [])
  }

  /**
   * The records one row contributes: none when its cell is NaN, not a
   * string (iterating a number raises), the string "[]", does not decode or
   * decodes to a value that cannot be iterated; otherwise one per element
   * up to the first that is not a dict (iterating a string or a dict gives
   * strings, so those contribute none).
   */
  function RowRecords(row: CsvRow, decode: string -> Option<Value>): (r: seq<Record>)
  {
    if row.entities.Chars? && row.entities.s != "[]" then
      match decode(row.entities.s)
      case None => []
      case Some(v) =>
        match Elements(v)
        case None => []
        case Some(items) => ObjectRecords(items[..FirstNonObject(items)], row.textId)
    else []
  }

  /** The records of all rows, in row order and then list order. */
  function ParsedRecords(rows: seq<CsvRow>, decode: string -> Option<Value>): seq<Record>
  {
    Flatten(Map(rows, (row: CsvRow) => RowRecords(row, decode)))
  }

  /** Records of a run of objects: one per object, defaults filled in, in order. */
  lemma {:induction false} ObjectRecordsOfObjects(items: seq<Value>, textId: int)
    requires forall i :: 0 <= i < |items| ==> items[i].Object?
    ensures |ObjectRecords(items, textId)| == |items|
    ensures forall i :: 0 <= i < |items| ==> ObjectRecords(items, textId)[i] == RecordOf(items[i], textId)
  {
    if items != [] {
      var n := |items| - 1;
      ObjectRecordsOfObjects(items[..n], textId);
    }
  }

  /**
   * A row whose cell decodes to a list contributes one record per element
   * before the first that is not a dict, each carrying the row's text_id and
   * the element's fields or their defaults ('' for text, 'UNKNOWN' for the
   * label, 0 for confidence); the records appended before the failure are
   * kept.
   */
  lemma RowRecordsOfDecoded(row: CsvRow, decode: string -> Option<Value>, items: seq<Value>)
    requires row.entities.Chars? && row.entities.s != "[]" && decode(row.entities.s) == Some(Array(items))
    ensures |RowRecords(row, decode)| == FirstNonObject(items)
    ensures forall i :: 0 <= i < |RowRecords(row, decode)| ==>
              items[i].Object? &&
              RowRecords(row, decode)[i].text == Get(items[i], "text", Str("")) &&
              RowRecords(row, decode)[i].kind == Get(items[i], "label", Str("UNKNOWN")) &&
              RowRecords(row, decode)[i].confidence == Get(items[i], "confidence", Num(0.0)) &&
              RowRecords(row, decode)[i].textId == row.textId
  {
    var k := FirstNonObject(items);
    ObjectRecordsOfObjects(items[..k], row.textId);
  }

  /**
   * Rows with no entities, the "[]" string, an undecodable cell, or a cell
   * that decodes to a number, a boolean, null, a string or a dict
   * contribute nothing.
   */
  lemma RowRecordsSkipped(row: CsvRow, decode: string -> Option<Value>)
    requires !row.entities.Chars? || row.entities.s == "[]" || decode(row.entities.s).None? ||
             !decode(row.entities.s).value.Array?
    ensures RowRecords(row, decode) == []
  {
    if row.entities.Chars? && row.entities.s != "[]" && decode(row.entities.s).Some? {
      var v := decode(row.entities.s).value;
      if Elements(v).Some? {
        var items := Elements(v).value;
        if items != [] {
          assert !items[0].Object?;
        }
      }
    }
  }

  /** Parsing is row by row: the records of `a + b` are those of `a` followed by those of `b`. */
  lemma ParsedRecordsAppend(a: seq<CsvRow>, b: seq<CsvRow>, decode: string -> Option<Value>)
    ensures ParsedRecords(a + b, decode) == ParsedRecords(a, decode) + ParsedRecords(b, decode)
  {
    var f := (row: CsvRow) => RowRecords(row, decode);
    MapAppend(a, b, f);
    FlattenAppend(Map(a, f), Map(b, f));
  }

  lemma ParsedRecordsStep(rows: seq<CsvRow>, decode: string -> Option<Value>, r: nat)
    requires r < |rows|
    ensures ParsedRecords(rows[..r + 1], decode) == ParsedRecords(rows[..r], decode) + RowRecords(rows[r], decode)
  {
    assert rows[..r + 1] == rows[..r] + [rows[r]];
    ParsedRecordsAppend(rows[..r], [rows[r]], decode);
    var f := (row: CsvRow) => RowRecords(row, decode);
    assert Map([rows[r]], f) == [RowRecords(rows[r], decode)];
    assert Flatten([RowRecords(rows[r], decode)]) == RowRecords(rows[r], decode) + Flatten([]);
  }

  /** The entity loop of `parse_entities`: one record per element, until `.get` raises on one that is not a dict. */
  method EntityRecords(items: seq<Value>, textId: int) returns (records: seq<Record>)
    ensures records == ObjectRecords(items[..FirstNonObject(items)], textId)
  {
    records := [];
    var j := 0;
    while j < |items| && items[j].Object?
      invariant j <= |items|
      invariant forall i :: 0 <= i < j ==> items[i].Object?
      invariant records == ObjectRecords(items[..j], textId)
    {
      assert items[..j + 1][..j] == items[..j];
      records := records + [RecordOf(items[j], textId)];
      j := j + 1;
    }
    assert j == FirstNonObject(items);
  }

  /** `parse_entities(df)`: the row loop, with the entity loop inside it. */
  method ParseEntities(rows: seq<CsvRow>, decode: string -> Option<Value>) returns (records: seq<Record>)
    ensures records == ParsedRecords(rows, decode)
  {
    records := [];
    for r := 0 to |rows|
      invariant records == ParsedRecords(rows[..r], decode)
    {
      ParsedRecordsStep(rows, decode, r);
      var row := rows[r];
      if row.entities.Chars? && row.entities.s != "[]" {
        var decoded := decode(row.entities.s);
        if decoded.Some? && Elements(decoded.value).Some? {
          var added := EntityRecords(Elements(decoded.value).value, row.textId);
          records := records + added;
        }
      }
    }
    assert rows[..|rows|] == rows;
  }

  // ---------------------------------------------------------------------------
  // entity_colors

  const OtherColor: string := "#DDA0DD"

  /** The palette of the visualizer, by entity type. */
  const Palette: map<string, string> := map[
    "PERSON" := "#FF6B6B",
    "LOCATION" := "#4ECDC4",
    "ORGANIZATION" := "#45B7D1",
    "DATE" := "#96CEB4",
    "MONEY" := "#FFEAA7",
    "OTHER" := OtherColor
  ]

  /**
   * `entity_colors.get(label, entity_colors['OTHER'])` for a label that can
   * be a dict key; `Null` is also the `None` of a type that was never found.
   */
  function ColorOf(kind: Value): string
  {
    if kind.Str? && kind.s in Palette then Palette[kind.s] else Palette["OTHER"]
  }

  /**
   * Every label gets a palette colour, and it gets the OTHER colour exactly
   * when it is not one of the five named types.
   */
  lemma ColorOfCorrect(kind: Value)
    ensures ColorOf(kind) in Palette.Values
    ensures ColorOf(kind) == OtherColor <==>
              !kind.Str? || kind.s !in {"PERSON", "LOCATION", "ORGANIZATION", "DATE", "MONEY"}
  {
    assert Palette["OTHER"] == OtherColor;
    if kind.Str? && kind.s in Palette {
      assert Palette[kind.s] in Palette.Values;
    }
  }

  // ---------------------------------------------------------------------------
  // What the charts need of the records

  function RecordLabel(r: Record): Value { r.kind }

  function RecordText(r: Record): Value { r.text }

  function RecordConfidence(r: Record): Value { r.confidence }

  function Labels(records: seq<Record>): seq<Value>
  {
    Map(records, RecordLabel)
  }

  function Texts(records: seq<Record>): seq<Value>
  {
    Map(records, RecordText)
  }

  function Confidences(records: seq<Record>): seq<Value>
  {
    Map(records, RecordConfidence)
  }

  /** Values that can all be `Counter` elements or dict keys. */
  predicate AllHashable(vs: seq<Value>)
  {
    forall i :: 0 <= i < |vs| ==> Hashable(vs[i])
  }

  /** Values numpy can all average and compare. */
  predicate AllNumeric(vs: seq<Value>)
  {
    forall i :: 0 <= i < |vs| ==> Numeric(vs[i])
  }

  /**
   * Records the report gets through: labels and texts that can be counted,
   * confidences that can be averaged.
   */
  predicate Reportable(records: seq<Record>)
  {
    AllHashable(Labels(records)) && AllNumeric(Confidences(records)) && AllHashable(Texts(records))
  }

  /**
   * Bar categories matplotlib accepts: no `None` (a bar at `None - width/2`
   * raises TypeError), and either all strings, placed on a category axis,
   * or none, placed at their numeric values (the category converter raises
   * TypeError on a value that is not a string).
   */
  predicate Categorical(vs: seq<Value>)
  {
    (forall i :: 0 <= i < |vs| ==> !vs[i].Null?) &&
    ((forall i :: 0 <= i < |vs| ==> vs[i].Str?) || (forall i :: 0 <= i < |vs| ==> !vs[i].Str?))
  }

  /** The number of texts the comprehensive analysis ranks. */
  const TopShown := 15

  /** The texts of a ranking, in its order: the categories of the ranking chart. */
  function RankedTexts(top: seq<(Value, nat)>): seq<Value>
  {
    Map(top, (p: (Value, nat)) => p.0)
  }

  /**
   * Records every chart of the comprehensive analysis gets through: the
   * report's conditions, and labels and top texts matplotlib can place as
   * bar categories.
   */
  predicate Chartable(records: seq<Record>)
  {
    Reportable(records) && Categorical(Labels(records)) &&
    Categorical(RankedTexts(MostCommon(Texts(records), TopShown)))
  }

  /** What a chart function does with the records: nothing for none, an exception, or the data it draws. */
  datatype Plot<T> = NoRecords | Raised | Drawn(content: T)

  // ---------------------------------------------------------------------------
  // create_entity_type_distribution, create_confidence_distribution,
  // create_entity_by_type_analysis

  /** One bar of a chart: its label, its height and its colour. */
  datatype Bar = Bar(name: Value, count: nat, color: string)

  function BarFor(p: (Value, nat)): Bar
  {
    Bar(p.0, p.1, ColorOf(p.0))
  }

  /** The sum of the heights of some bars. */
  function BarTotal(bars: seq<Bar>): nat
  {
    if bars == [] then 0 else bars[0].count + BarTotal(bars[1..])
  }

  /**
   * The bars of the entity-type distribution (`Counter` of the labels):
   * nothing for no records, TypeError for a label that cannot be counted or
   * placed as a bar category.
   */
  function TypeDistribution(records: seq<Record>): Plot<seq<Bar>>
  {
    if records == [] then NoRecords
    else if !AllHashable(Labels(records)) || !Categorical(Labels(records)) then Raised
    else Drawn(Map(Counts(Labels(records)), BarFor))
  }

  /** A record with a null label stops the distribution chart, and with it the whole analysis. */
  lemma NullLabelNotDrawn(records: seq<Record>, i: nat)
    requires i < |records| && records[i].kind.Null?
    ensures TypeDistribution(records).Raised? && !Chartable(records)
  {
    assert Labels(records)[i] == records[i].kind;
  }

  lemma {:induction false} BarTotalOfPairs(ps: seq<(Value, nat)>)
    ensures BarTotal(Map(ps, BarFor)) == PairSum(ps)
  {
    if ps != [] {
      BarTotalOfPairs(ps[1..]);
      assert Map(ps, BarFor)[1..] == Map(ps[1..], BarFor);
    }
  }

  /**
   * One bar per label, in first-appearance order, each as high as the
   * number of records with that label and coloured by it; the heights add
   * up to the number of records.
   */
  lemma TypeDistributionCorrect(records: seq<Record>)
    requires records != [] && AllHashable(Labels(records)) && Categorical(Labels(records))
    ensures TypeDistribution(records).Drawn?
    ensures var bars := TypeDistribution(records).content;
            |bars| == |FirstOccurrences(Labels(records))| &&
            (forall i :: 0 <= i < |bars| ==>
               bars[i].name == FirstOccurrences(Labels(records))[i] &&
               bars[i].count == Occurrences(Labels(records), bars[i].name) &&
               bars[i].color == ColorOf(bars[i].name)) &&
            BarTotal(bars) == |records|
  {
    BarTotalOfPairs(Counts(Labels(records)));
    CountsPairSum(Labels(records));
  }

  /**
   * `create_confidence_distribution`: the confidences it plots, one per
   * record; `np.mean` raises on a confidence that is not a number.
   */
  function ConfidenceDistribution(records: seq<Record>): (r: Plot<seq<Value>>)
    ensures r.NoRecords? <==> records == []
    ensures r.Raised? <==> records != [] && exists i :: 0 <= i < |records| && !Numeric(records[i].confidence)
    ensures r.Drawn? ==> |r.content| == |records| && forall i :: 0 <= i < |records| ==> r.content[i] == records[i].confidence
  {
    if records == [] then NoRecords
    else if !AllNumeric(Confidences(records)) then Raised
    else Drawn(Confidences(records))
  }

  /**
   * `create_entity_by_type_analysis`: the grouping loop and the bars of the
   * count chart built from it. Grouping raises on a label that cannot be a
   * dict key, the per-group `np.mean` on a confidence that is not a
   * number, and the count chart on labels that are not bar categories;
   * otherwise the groups give exactly the distribution.
   */
  method EntityByTypeAnalysis(records: seq<Record>) returns (bars: Plot<seq<Bar>>)
    ensures records == [] <==> bars == NoRecords
    ensures records != [] ==>
              (bars.Raised? <==>
                 !AllHashable(Labels(records)) || !AllNumeric(Confidences(records)) || !Categorical(Labels(records)))
    ensures bars.Drawn? ==> bars == TypeDistribution(records)
  {
    if records == [] {
      return NoRecords;
    }
    if !AllHashable(Labels(records)) || !AllNumeric(Confidences(records)) || !Categorical(Labels(records)) {
      return Raised;
    }
    var sizes := GroupSizes(records, RecordLabel);
    var result := CountBars(sizes);
    bars := Drawn(result);
  }

  /** The bars of the count chart: one per group, as high as the group, in the palette colour of its label. */
  method CountBars(sizes: seq<(Value, nat)>) returns (result: seq<Bar>)
    ensures result == Map(sizes, BarFor)
  {
    result := [];
    for i := 0 to |sizes|
      invariant |result| == i
      invariant forall t :: 0 <= t < i ==> result[t] == BarFor(sizes[t])
    {
      result := result + [Bar(sizes[i].0, sizes[i].1, ColorOf(sizes[i].0))];
    }
  }

  // ---------------------------------------------------------------------------
  // create_top_entities

  /** The index of the first record whose text is `t`, or the number of records. */
  function FirstWithText(records: seq<Record>, t: Value): (k: nat)
    ensures k <= |records|
    ensures forall j :: 0 <= j < k ==> records[j].text != t
    ensures k < |records| ==> records[k].text == t
  {
    if records == [] || records[0].text == t then 0
    else
      var k := FirstWithText(records[1..], t);
      assert forall j :: 1 <= j < k + 1 ==> records[j] == records[1..][j - 1];
      k + 1
  }

  /** The label of the first record with text `t`; `None` (`Null`) when there is none. */
  function TypeOfText(records: seq<Record>, t: Value): Value
  {
    var k := FirstWithText(records, t);
    if k < |records| then records[k].kind else Null
  }

  /** The type of every ranked text can be looked up in the palette. */
  predicate TopTypesHashable(records: seq<Record>, top: seq<(Value, nat)>)
  {
    forall i :: 0 <= i < |top| ==> Hashable(TypeOfText(records, top[i].0))
  }

  /** What `create_top_entities` draws. */
  datatype TopChart =
    | NothingToRank            // "沒有實體資料可視覺化"
    | RankingRaised            // `Counter` of the texts, the palette lookup of a type, or `barh` raised TypeError
    | NoneFound                // "沒有找到實體": most_common gave nothing
    | TopBars(bars: seq<Bar>)  // one horizontal bar per top text

  /** The chart's bars: the most common texts with their counts and the colour of their type. */
  function TopBarsOf(records: seq<Record>, top: seq<(Value, nat)>): seq<Bar>
  {
    Map(top, (p: (Value, nat)) => Bar(p.0, p.1, ColorOf(TypeOfText(records, p.0))))
  }

  /** The search loop of `create_top_entities`: the label of the first record with text `t`. */
  method FindType(records: seq<Record>, t: Value) returns (entityType: Value)
    ensures entityType == TypeOfText(records, t)
  {
    for j := 0 to |records|
      invariant forall i :: 0 <= i < j ==> records[i].text != t
    {
      if records[j].text == t {
        return records[j].kind;
      }
    }
    return Null;
  }

  /**
   * The colour loop of `create_top_entities`: one bar per ranked text,
   * unless the type found for one cannot be looked up in the palette.
   */
  method RankedBars(records: seq<Record>, top: seq<(Value, nat)>) returns (bars: Option<seq<Bar>>)
    ensures bars.None? <==> !TopTypesHashable(records, top)
    ensures bars.Some? ==> bars.value == TopBarsOf(records, top)
  {
    var result: seq<Bar> := [];
    for i := 0 to |top|
      invariant |result| == i
      invariant forall t :: 0 <= t < i ==> result[t] == TopBarsOf(records, top)[t]
      invariant forall t :: 0 <= t < i ==> Hashable(TypeOfText(records, top[t].0))
    {
      var entityType := FindType(records, top[i].0);
      if !Hashable(entityType) {
        return None;
      }
      result := result + [Bar(top[i].0, top[i].1, ColorOf(entityType))];
    }
    assert result == TopBarsOf(records, top);
    bars := Some(result);
  }

  /** `create_top_entities(entities, top_n)`. */
  method CreateTopEntities(records: seq<Record>, topN: int) returns (chart: TopChart)
    ensures records == [] <==> chart == NothingToRank
    ensures chart.RankingRaised? <==>
              records != [] &&
              (!AllHashable(Texts(records)) ||
               (topN > 0 && (!TopTypesHashable(records, MostCommon(Texts(records), topN)) ||
                             !Categorical(RankedTexts(MostCommon(Texts(records), topN))))))
    ensures chart.NoneFound? <==> records != [] && AllHashable(Texts(records)) && topN <= 0
    ensures chart.TopBars? ==> chart.bars == TopBarsOf(records, MostCommon(Texts(records), topN))
  {
    if records == [] {
      return NothingToRank;
    }
    if !AllHashable(Texts(records)) {
      return RankingRaised;
    }
    var top := MostCommon(Texts(records), topN);
    if top == [] {
      if topN > 0 {
        MostCommonNonEmpty(Texts(records), topN);
      }
      return NoneFound;
    }
    if topN <= 0 {
      MostCommonCorrect(Texts(records), topN);
    }
    var bars := RankedBars(records, top);
    if bars.None? || !Categorical(RankedTexts(top)) {
      return RankingRaised;
    }
    chart := TopBars(bars.value);
  }

  /** With countable labels, the type of any text is a label or `None`, so the lookup cannot raise. */
  lemma TopTypesOfHashableLabels(records: seq<Record>, top: seq<(Value, nat)>)
    requires AllHashable(Labels(records))
    ensures TopTypesHashable(records, top)
  {
    forall i | 0 <= i < |top| ensures Hashable(TypeOfText(records, top[i].0)) {
      var k := FirstWithText(records, top[i].0);
      if k < |records| {
        assert Labels(records)[k] == records[k].kind;
      }
    }
  }

  /**
   * Every top text occurs among the records, so its bar takes the colour of
   * the label of the first record with that text.
   */
  lemma TopBarColor(records: seq<Record>, topN: int, i: nat)
    requires i < |MostCommon(Texts(records), topN)|
    ensures var bar := TopBarsOf(records, MostCommon(Texts(records), topN))[i];
            FirstWithText(records, bar.name) < |records| &&
            bar.color == ColorOf(records[FirstWithText(records, bar.name)].kind)
  {
    var texts := Texts(records);
    var t := MostCommon(texts, topN)[i].0;
    MostCommonMember(texts, topN, i);
    var k :| 0 <= k < |texts| && texts[k] == t;
    assert records[k].text == t;
  }

  // ---------------------------------------------------------------------------
  // generate_statistics_report

  /** The counts of the report: total, per type, and the ten most common texts. */
  datatype Report = Report(total: nat, typeCounts: seq<(Value, nat)>, top: seq<(Value, nat)>)

  /**
   * `generate_statistics_report`: nothing for no records; an exception when
   * a label or a text cannot be counted or a confidence averaged; otherwise
   * the per-type count is the length of the records filtered by each label
   * of the `Counter`, in its key order.
   */
  function StatisticsReport(records: seq<Record>): Plot<Report>
  {
    if records == [] then NoRecords
    else if !Reportable(records) then Raised
    else
      var typeCounts := Map(FirstOccurrences(Labels(records)),
                            (l: Value) => (l, |WithKey(records, RecordLabel, l)|));
      Drawn(Report(|records|, typeCounts, MostCommon(Texts(records), 10)))
  }

  /**
   * The per-type counts of the report are the `Counter`'s counts and add up
   * to the total; the top list has at most ten texts, highest first.
   */
  lemma StatisticsReportCorrect(records: seq<Record>)
    requires records != [] && Reportable(records)
    ensures StatisticsReport(records).Drawn?
    ensures StatisticsReport(records).content.typeCounts == Counts(Labels(records))
    ensures PairSum(StatisticsReport(records).content.typeCounts) == StatisticsReport(records).content.total
    ensures |StatisticsReport(records).content.top| <= 10
    ensures NonIncreasing(StatisticsReport(records).content.top)
  {
    var typeCounts := StatisticsReport(records).content.typeCounts;
    assert typeCounts == Counts(Labels(records));
    CountsPairSum(Labels(records));
    MostCommonCorrect(Texts(records), 10);
  }

  // ---------------------------------------------------------------------------
  // create_comprehensive_analysis

  /** What the whole analysis produces. */
  datatype Analysis =
    | NoData          // "無法載入資料": loading failed or the table is empty
    | NoEntities      // "沒有找到實體資料"
    | ChartRaised     // one of the charts or the report raised
    | Charts(recordCount: nat, distribution: seq<Bar>, top: seq<Bar>, report: Report)

  /**
   * `create_comprehensive_analysis`: `loaded` is the table, or `None` when
   * reading the CSV file failed. The charts see the parsed records; they
   * are all drawn exactly when every label and text can be counted and
   * every confidence averaged, and the labels and the top texts can be
   * placed as bar categories. The ranking keeps 15 texts.
   */
  method ComprehensiveAnalysis(loaded: Option<seq<CsvRow>>, decode: string -> Option<Value>) returns (a: Analysis)
    ensures loaded.None? || loaded.value == [] ==> a == NoData
    ensures loaded.Some? && loaded.value != [] && ParsedRecords(loaded.value, decode) == [] ==> a == NoEntities
    ensures loaded.Some? && loaded.value != [] && ParsedRecords(loaded.value, decode) != [] ==>
              (a.Charts? <==> Chartable(ParsedRecords(loaded.value, decode))) &&
              (a.ChartRaised? <==> !Chartable(ParsedRecords(loaded.value, decode)))
    ensures a.Charts? ==>
              var records := ParsedRecords(loaded.value, decode);
              a.recordCount == |records| &&
              Drawn(a.distribution) == TypeDistribution(records) &&
              a.top == TopBarsOf(records, MostCommon(Texts(records), TopShown)) &&
              Drawn(a.report) == StatisticsReport(records)
  {
    if loaded.None? || loaded.value == [] {
      return NoData;
    }
    var records := ParseEntities(loaded.value, decode);
    if records == [] {
      return NoEntities;
    }
    var distribution := TypeDistribution(records);
    if distribution.Raised? {
      return ChartRaised;
    }
    var confidences := ConfidenceDistribution(records);
    if confidences.Raised? {
      return ChartRaised;
    }
    var byType := EntityByTypeAnalysis(records);
    if byType.Raised? {
      return ChartRaised;
    }
    var top := CreateTopEntities(records, TopShown);
    if top.RankingRaised? {
      return ChartRaised;
    }
    assert top.TopBars?;
    TopTypesOfHashableLabels(records, MostCommon(Texts(records), TopShown));
    var report := StatisticsReport(records);
    a := Charts(|records|, distribution.content, top.bars, report.content);
  }
}
