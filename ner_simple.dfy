/**
 * The deterministic parts of AI_02/ner_simple.py: reading `.env` lines into
 * the process environment, cleaning the model's reply before it is decoded,
 * the never-raising entity extraction, grouping entities by label for
 * display, the rows and pauses of the batch run, and the label statistics of
 * the batch analysis.
 *
 * The model service, `json.loads` and `json.dumps` are parameters: the
 * service maps (call index, text) to a reply or a failure, decoding maps a
 * string to a JSON value or `None` for a JSONDecodeError, encoding maps a
 * JSON value to its text.
 */
module NerSimple {
  import opened Base
  import opened Text
  import opened Tally
  import opened Json

  // ---------------------------------------------------------------------------
  // Entities as the model returns them: any JSON value, normally a list of dicts

  /** `entity.get('label', 'UNKNOWN')` on an entity dict. */
  function LabelOf(entity: Value): Value
  {
    Get(entity, "label", Str("UNKNOWN"))
  }

  // ---------------------------------------------------------------------------
  // load_env_file

  /** The key and value a `.env` line defines, if any: blank lines, comments and lines without '=' define nothing. */
  function EnvEntry(line: string): (r: Option<(string, string)>)
    ensures r.None? <==> Trim(line) == "" || Trim(line)[0] == '#' || '=' !in Trim(line)
  {
    var l := Trim(line);
    if l == "" || l[0] == '#' then None
    else
      match IndexOf(l, '=')
      case None => None
      case Some(k) => Some((Trim(l[..k]), Trim(l[k + 1..])))
  }

  /** A defining line splits at its first '=' into a trimmed key and a trimmed value. */
  lemma EnvEntryAtFirstEquals(line: string, k: nat)
    requires Trim(line) != "" && Trim(line)[0] != '#'
    requires k < |Trim(line)| && Trim(line)[k] == '=' && '=' !in Trim(line)[..k]
    ensures EnvEntry(line) == Some((Trim(Trim(line)[..k]), Trim(Trim(line)[k + 1..])))
  {
    IndexOfAt(Trim(line), '=', k);
  }

  /** `KEY=VALUE` written out with a trimmed key and value reads back as that pair. */
  lemma EnvEntryOfAssignment(key: string, value: string)
    requires key != "" && Trim(key) == key && key[0] != '#' && '=' !in key
    requires Trim(value) == value
    ensures EnvEntry(key + "=" + value) == Some((key, value))
  {
    var line := key + "=" + value;
    assert line[0] == key[0];
    assert line[|line| - 1] == if value == "" then '=' else value[|value| - 1];
    TrimNoSpaceEnds(line);
    assert line[..|key|] == key && line[|key|] == '=' && line[|key| + 1..] == value;
    EnvEntryAtFirstEquals(line, |key|);
  }

  /** The environment after `lines` have been read in order. */
  function ApplyEnvLines(env: map<string, string>, lines: seq<string>): map<string, string>
  {
    if lines == [] then env
    else
      var before := ApplyEnvLines(env, lines[..|lines| - 1]);
      match EnvEntry(lines[|lines| - 1])
      case None => before
      case Some(kv) => before[kv.0 := kv.1]
  }

  lemma ApplyEnvLinesStep(env: map<string, string>, lines: seq<string>, i: nat)
    requires i < |lines|
    ensures ApplyEnvLines(env, lines[..i + 1]) ==
            match EnvEntry(lines[i])
            case None => ApplyEnvLines(env, lines[..i])
            case Some(kv) => ApplyEnvLines(env, lines[..i])[kv.0 := kv.1]
  {
    assert lines[..i + 1][..i] == lines[..i];
  }

  /** Reading `a` and then `b` is reading `a + b`. */
  lemma {:induction false} ApplyEnvLinesAppend(env: map<string, string>, a: seq<string>, b: seq<string>)
    ensures ApplyEnvLines(env, a + b) == ApplyEnvLines(ApplyEnvLines(env, a), b)
  {
    if b != [] {
      ApplyEnvLinesAppend(env, a, b[..|b| - 1]);
      assert (a + b)[..|a + b| - 1] == a + b[..|b| - 1];
      assert (a + b)[|a + b| - 1] == b[|b| - 1];
    } else {
      assert a + b == a;
    }
  }

  /** Lines that define something else leave `k` as it was. */
  predicate DefinesNot(lines: seq<string>, k: string)
  {
    forall i :: 0 <= i < |lines| ==> EnvEntry(lines[i]).None? || EnvEntry(lines[i]).value.0 != k
  }

  lemma {:induction false} ApplyEnvLinesKeeps(env: map<string, string>, lines: seq<string>, k: string)
    requires DefinesNot(lines, k)
    ensures k in ApplyEnvLines(env, lines) <==> k in env
    ensures k in env ==> ApplyEnvLines(env, lines)[k] == env[k]
  {
    if lines != [] {
      var init := lines[..|lines| - 1];
      assert DefinesNot(init, k) by {
        forall i | 0 <= i < |init| ensures EnvEntry(init[i]).None? || EnvEntry(init[i]).value.0 != k {
          assert init[i] == lines[i];
        }
      }
      ApplyEnvLinesKeeps(env, init, k);
      assert EnvEntry(lines[|lines| - 1]).None? || EnvEntry(lines[|lines| - 1]).value.0 != k;
    }
  }

  /** The last line that defines a key wins: later lines that do not define it leave it alone. */
  lemma LastDefinitionWins(env: map<string, string>, a: seq<string>, line: string, b: seq<string>, k: string, v: string)
    requires EnvEntry(line) == Some((k, v))
    requires DefinesNot(b, k)
    ensures k in ApplyEnvLines(env, a + [line] + b) && ApplyEnvLines(env, a + [line] + b)[k] == v
  {
    ApplyEnvLinesAppend(env, a + [line], b);
    assert (a + [line])[..|a + [line]| - 1] == a;
    ApplyEnvLinesKeeps(ApplyEnvLines(env, a + [line]), b, k);
  }

  /** Blank lines, comments and lines without '=' change nothing. */
  lemma SkippedLineChangesNothing(env: map<string, string>, a: seq<string>, line: string, b: seq<string>)
    requires EnvEntry(line).None?
    ensures ApplyEnvLines(env, a + [line] + b) == ApplyEnvLines(env, a + b)
  {
    ApplyEnvLinesAppend(env, a + [line], b);
    assert (a + [line])[..|a + [line]| - 1] == a;
    ApplyEnvLinesAppend(env, a, b);
  }

  /**
   * A defining line whose assignment to `os.environ` raises ValueError: an
   * empty name (as in "=x"), or a NUL character in the name or the value.
   */
  predicate Rejected(line: string)
  {
    Illegal(EnvEntry(line))
  }

  predicate Illegal(entry: Option<(string, string)>)
  {
    entry.Some? && (entry.value.0 == "" || '\0' in entry.value.0 || '\0' in entry.value.1)
  }

  /** The index of the first line whose assignment raises, or the number of lines. */
  function FirstRejected(lines: seq<string>): (k: nat)
    ensures k <= |lines|
    ensures forall i :: 0 <= i < k ==> !Rejected(lines[i])
    ensures k < |lines| ==> Rejected(lines[k])
  {
    if lines == [] || Rejected(lines[0]) then 0
    else
      var k := FirstRejected(lines[1..]);
      assert forall i :: 1 <= i < k + 1 ==> lines[i] == lines[1..][i - 1];
      k + 1
  }

  /**
   * A line with nothing before its '=' stops the loading: the lines before
   * it have been applied, the ones after it are not read.
   */
  lemma EmptyNameStopsLoading(a: seq<string>, value: string, b: seq<string>)
    requires forall i :: 0 <= i < |a| ==> !Rejected(a[i])
    requires Trim(value) == value
    ensures FirstRejected(a + ["=" + value] + b) == |a|
  {
    var line := "=" + value;
    assert line[|line| - 1] == if value == "" then '=' else value[|value| - 1];
    TrimNoSpaceEnds(line);
    IndexOfAt(line, '=', 0);
    assert EnvEntry(line).value.0 == Trim([]);
    var lines := a + [line] + b;
    var k := FirstRejected(lines);
    assert forall i :: 0 <= i < |a| ==> lines[i] == a[i];
    assert lines[|a|] == line;
  }

  /** The process environment that `load_env_file` writes into. */
  class Environment {
    var vars: map<string, string>

    constructor(initial: map<string, string>)
      ensures vars == initial
    {
      vars := initial;
    }

    /**
     * `load_env_file()`: `file` is the list of lines of `.env`, or `None`
     * when the file does not exist. The lines are applied in order until
     * one whose assignment raises; `raised` tells whether one did, and then
     * the exception ends the script, which calls this at import.
     */
    method LoadEnvFile(file: Option<seq<string>>) returns (raised: bool)
      modifies this
      ensures file.None? ==> !raised && vars == old(vars)
      ensures file.Some? ==> (raised <==> FirstRejected(file.value) < |file.value|)
      ensures file.Some? ==> vars == ApplyEnvLines(old(vars), file.value[..FirstRejected(file.value)])
    {
      if file.None? {
        return false;
      }
      var lines := file.value;
      ghost var stop := FirstRejected(lines);
      for i := 0 to |lines|
        invariant i <= stop
        invariant vars == ApplyEnvLines(old(vars), lines[..i])
      {
        var entry := EnvEntry(lines[i]);
        if Illegal(entry) {
          assert Rejected(lines[i]);
          assert stop == i;
          return true;
        }
        assert !Rejected(lines[i]);
        assert i != stop;
        ApplyEnvLinesStep(old(vars), lines, i);
        if entry.Some? {
          vars := vars[entry.value.0 := entry.value.1];
        }
      }
      assert lines[..|lines|] == lines;
      return false;
    }
  }

  /** The key `SimpleNER()` requires: present and non-empty, or the constructor raises ValueError. */
  predicate HasApiKey(env: map<string, string>)
  {
    "OPENAI_API_KEY" in env && env["OPENAI_API_KEY"] != ""
  }

  // ---------------------------------------------------------------------------
  // extract_entities

  const JsonFence: string := "```json"
  const Fence: string := "```"

  /**
   * The fence stripping of `extract_entities`: a leading "```json" is cut,
   * then a trailing "```". Together with what was cut, the result rebuilds
   * the input.
   */
  function StripFences(content: string): (r: string)
    ensures var p := if StartsWith(content, JsonFence) then JsonFence else "";
            var s := if EndsWith(content[|p|..], Fence) then Fence else "";
            content == p + r + s
  {
    var a := if StartsWith(content, JsonFence) then content[7..] else content;
    if EndsWith(a, Fence) then a[..|a| - 3] else a
  }

  /** The content handed to `json.loads`: stripped, unfenced, stripped again. */
  function CleanReply(raw: string): string
  {
    Trim(StripFences(Trim(raw)))
  }

  /** A body wrapped in "```json" … "```" comes out unwrapped. */
  lemma StripFencesOfFenced(body: string)
    ensures StripFences(JsonFence + body + Fence) == body
  {
    var c := JsonFence + body + Fence;
    assert c[..7] == JsonFence;
    assert c[7..] == body + Fence;
    assert (body + Fence)[|body + Fence| - 3..] == Fence;
    assert (body + Fence)[..|body + Fence| - 3] == body;
  }

  /** A fenced reply reaches the decoder as the trimmed body alone. */
  lemma CleanReplyOfFenced(body: string)
    ensures CleanReply(JsonFence + body + Fence) == Trim(body)
  {
    var c := JsonFence + body + Fence;
    assert c[0] == '`' && c[|c| - 1] == '`';
    TrimNoSpaceEnds(c);
    StripFencesOfFenced(body);
  }

  /** A reply with neither marker is only trimmed. */
  lemma CleanReplyOfUnfenced(raw: string)
    requires !StartsWith(Trim(raw), JsonFence) && !EndsWith(Trim(raw), Fence)
    ensures CleanReply(raw) == Trim(raw)
  {
    TrimIdempotent(raw);
  }

  /**
   * `extract_entities(text)` given the service's reply: the "entities"
   * member of the decoded reply, whatever JSON value it holds, and `[]` on
   * every failure (the service raised, the reply did not decode, the
   * decoded value is not a dict and `.get` raised, the key is missing).
   */
  function ExtractEntities(reply: Result<string>, decode: string -> Option<Value>): (r: Value)
    ensures reply.Failure? ==> r == Array([])
    ensures reply.Success? && decode(CleanReply(reply.value)).None? ==> r == Array([])
    ensures reply.Success? && decode(CleanReply(reply.value)).Some? ==>
              var decoded := decode(CleanReply(reply.value)).value;
              (!Has(decoded, "entities") ==> r == Array([])) &&
              (Has(decoded, "entities") ==> r == Lookup(decoded.members, "entities").value)
  {
    match reply
    case Failure(_) => Array([])
    case Success(raw) =>
      match decode(CleanReply(raw))
      case None => Array([])
      case Some(decoded) => if decoded.Object? then Get(decoded, "entities", Array([])) else Array([])
  }

  /** Wrapping the reply in a "```json" fence does not change what is extracted. */
  lemma ExtractIgnoresFence(body: string, decode: string -> Option<Value>)
    requires !StartsWith(Trim(body), JsonFence) && !EndsWith(Trim(body), Fence)
    ensures ExtractEntities(Success(JsonFence + body + Fence), decode) == ExtractEntities(Success(body), decode)
  {
    CleanReplyOfFenced(body);
    CleanReplyOfUnfenced(body);
  }

  // ---------------------------------------------------------------------------
  // display_entities

  /** What `display_entities` shows. */
  datatype Display =
    | NoEntities                                                   // "未找到任何實體"
    | Groups(labels: seq<Value>, groups: map<Value, seq<Value>>)  // one block per label
    | Raised                                                       // the grouping or the printing raised

  /**
   * An entity both loops get through: a dict (`.get` raises AttributeError
   * on anything else) whose label can be a dict key, that has a "text"
   * (`entity['text']` raises KeyError) and whose confidence `:.2f` formats.
   */
  predicate Printable(entity: Value)
  {
    entity.Object? && Hashable(LabelOf(entity)) && Has(entity, "text") &&
    Numeric(Get(entity, "confidence", Num(0.0)))
  }

  /** A list of printable entities; iterating anything else raises or yields strings. */
  predicate Displayable(entities: Value)
  {
    entities.Array? && forall i :: 0 <= i < |entities.items| ==> Printable(entities.items[i])
  }

  /**
   * `display_entities(entities)`: nothing for a false value; otherwise the
   * entities grouped by label in an insertion-ordered dict, a missing label
   * counting as 'UNKNOWN' and a null one as `None`, unless an entity cannot
   * be grouped or printed.
   */
  method DisplayEntities(entities: Value) returns (d: Display)
    ensures d.NoEntities? <==> !Truthy(entities)
    ensures d.Raised? <==> Truthy(entities) && !Displayable(entities)
    ensures d.Groups? ==> d.labels == FirstOccurrences(Map(entities.items, LabelOf))
    ensures d.Groups? ==> forall l :: l in d.groups <==> l in Map(entities.items, LabelOf)
    ensures d.Groups? ==> forall l :: l in d.groups ==> d.groups[l] == WithKey(entities.items, LabelOf, l)
  {
    if !Truthy(entities) {
      return NoEntities;
    }
    if !Displayable(entities) {
      return Raised;
    }
    var labels, groups := GroupBy(entities.items, LabelOf);
    d := Groups(labels, groups);
  }

  // ---------------------------------------------------------------------------
  // batch_process_texts

  /** One row of the results DataFrame; `entities` is the `json.dumps` of the extracted value. */
  datatype Row = Row(textId: nat, text: string, entities: string, entityCount: nat, processed: bool, error: Option<PyError>)

  /** The exception `entity['text']` and then `entity['label']` raise on one element, if any. */
  function ItemError(entity: Value): Option<PyError>
  {
    if !entity.Object? then Some(TypeError)
    else if !Has(entity, "text") then Some(KeyError("text"))
    else if !Has(entity, "label") then Some(KeyError("label"))
    else None
  }

  /** The exception of the first element the echo loop cannot print, if any. */
  function EchoItems(items: seq<Value>): (r: Option<PyError>)
    ensures r.None? <==> forall i :: 0 <= i < |items| ==> ItemError(items[i]).None?
    ensures r.Some? ==> exists k :: 0 <= k < |items| && r == ItemError(items[k]) &&
                                    forall i :: 0 <= i < k ==> ItemError(items[i]).None?
  {
    if items == [] then None
    else if ItemError(items[0]).Some? then ItemError(items[0])
    else
      var r := EchoItems(items[1..]);
      assert forall i :: 1 <= i < |items| ==> items[i] == items[1..][i - 1];
      r
  }

  /**
   * The exception of the echo loop (`if entities:` and then `for entity in
   * entities`), if any: none for a false value or a list of dicts that all
   * have "text" and "label"; a KeyError naming the first missing key; a
   * TypeError for a true value that is not a list, since iterating it
   * raises or yields strings, which cannot be indexed by a key.
   */
  function EchoError(entities: Value): (r: Option<PyError>)
    ensures r.None? <==> !Truthy(entities) ||
                         (entities.Array? && forall i :: 0 <= i < |entities.items| ==> ItemError(entities.items[i]).None?)
    ensures r.Some? ==> r.value == TypeError || r.value == KeyError("text") || r.value == KeyError("label")
    ensures r.Some? && !entities.Array? ==> r.value == TypeError
  {
    if !Truthy(entities) then None
    else
      match Elements(entities)
      case None => Some(TypeError)
      case Some(es) =>
        var r := EchoItems(es);
        if entities.Array? then r
        else
          assert es != [] && !es[0].Object?;
          r
  }

  /**
   * The rows appended for text `i`: when `len` of the extracted value
   * raises, only an error row; otherwise the result row with the `len` as
   * entity count, followed by an error row when echoing the entities raises.
   */
  function RowsFor(i: nat, text: string, extracted: Value, encode: Value -> string): (rows: seq<Row>)
    ensures 1 <= |rows| <= 2
    ensures forall j :: 0 <= j < |rows| ==> rows[j].textId == i && rows[j].text == text
    ensures forall j :: 0 <= j < |rows| ==> (rows[j].processed <==> rows[j].error.None?)
    ensures forall j :: 0 <= j < |rows| ==> !rows[j].processed ==> rows[j].entityCount == 0 && rows[j].entities == encode(Array([]))
    ensures rows[0].processed <==> Len(extracted).Some?
    ensures Len(extracted).None? ==> rows[0].error == Some(TypeError)
    ensures Len(extracted).Some? ==> rows[0].entityCount == Len(extracted).value && rows[0].entities == encode(extracted)
    ensures |rows| == 2 <==> Len(extracted).Some? && EchoError(extracted).Some?
    ensures |rows| == 2 ==> rows[1].error == EchoError(extracted)
  {
    match Len(extracted)
    case None => [Row(i, text, encode(Array([])), 0, false, Some(TypeError))]
    case Some(n) =>
      var ok := Row(i, text, encode(extracted), n, true, None);
      match EchoError(extracted)
      case None => [ok]
      case Some(e) => [ok, Row(i, text, encode(Array([])), 0, false, Some(e))]
  }

  /** An entity with a null label is echoed as it is: one processed row, no error. */
  lemma NullLabelEchoes(i: nat, text: string, t: string, encode: Value -> string)
    ensures var e := Object([("text", Str(t)), ("label", Null)]);
            RowsFor(i, text, Array([e]), encode) == [Row(i, text, encode(Array([e])), 1, true, None)]
  {
    var e := Object([("text", Str(t)), ("label", Null)]);
    assert Lookup(e.members, "text").Some? by {
      assert Lookup(e.members[..1], "text").Some?;
    }
    assert Lookup(e.members, "label").Some?;
    assert EchoItems([e][1..]) == None;
  }

  /** What `extract_entities` returns for each text; call `i` of the service is for text `i`. */
  function ExtractAll(texts: seq<string>, service: (nat, string) -> Result<string>, decode: string -> Option<Value>)
    : (results: seq<Value>)
    ensures |results| == |texts|
    ensures forall i :: 0 <= i < |texts| ==> results[i] == ExtractEntities(service(i, texts[i]), decode)
  {
    seq(|texts|, i requires 0 <= i < |texts| => ExtractEntities(service(i, texts[i]), decode))
  }

  /** All rows of the batch, in input order, given what was extracted for each text. */
  function BatchRows(texts: seq<string>, results: seq<Value>, encode: Value -> string): seq<Row>
    requires |results| == |texts|
  {
    if texts == [] then []
    else
      var n := |texts| - 1;
      BatchRows(texts[..n], results[..n], encode) + RowsFor(n, texts[n], results[n], encode)
  }

  /** The number of texts whose entities cannot all be echoed. */
  function EchoFailures(results: seq<Value>): nat
  {
    if results == [] then 0
    else
      var e := results[|results| - 1];
      EchoFailures(results[..|results| - 1]) + (if Len(e).Some? && EchoError(e).Some? then 1 else 0)
  }

  /** The text index of each row. */
  function RowIds(rows: seq<Row>): (ids: seq<nat>)
    ensures |ids| == |rows| && forall j :: 0 <= j < |rows| ==> ids[j] == rows[j].textId
  {
    Map(rows, (row: Row) => row.textId)
  }

  lemma BatchRowsStep(texts: seq<string>, results: seq<Value>, encode: Value -> string, i: nat)
    requires |results| == |texts| && i < |texts|
    ensures BatchRows(texts[..i + 1], results[..i + 1], encode) ==
            BatchRows(texts[..i], results[..i], encode) + RowsFor(i, texts[i], results[i], encode)
  {
    assert texts[..i + 1][..i] == texts[..i];
    assert results[..i + 1][..i] == results[..i];
  }

  /** One row per text plus one per text whose echo raises. */
  lemma {:induction false} BatchRowsLength(texts: seq<string>, results: seq<Value>, encode: Value -> string)
    requires |results| == |texts|
    ensures |BatchRows(texts, results, encode)| == |texts| + EchoFailures(results)
  {
    if texts != [] {
      BatchRowsLength(texts[..|texts| - 1], results[..|texts| - 1], encode);
    }
  }

  /** Every row names a text by its index and carries that text. */
  predicate RowsNameTexts(rows: seq<Row>, texts: seq<string>)
  {
    forall j :: 0 <= j < |rows| ==> rows[j].textId < |texts| && rows[j].text == texts[rows[j].textId]
  }

  lemma {:induction false} BatchRowsTexts(texts: seq<string>, results: seq<Value>, encode: Value -> string)
    requires |results| == |texts|
    ensures RowsNameTexts(BatchRows(texts, results, encode), texts)
  {
    if texts != [] {
      var n := |texts| - 1;
      var init := texts[..n];
      BatchRowsTexts(init, results[..n], encode);
      var before := BatchRows(init, results[..n], encode);
      var last := RowsFor(n, texts[n], results[n], encode);
      var rows := before + last;
      assert BatchRows(texts, results, encode) == rows;
      forall j | 0 <= j < |rows| ensures rows[j].textId < |texts| && rows[j].text == texts[rows[j].textId] {
        if j < |before| {
          assert rows[j] == before[j];
          assert init[before[j].textId] == texts[before[j].textId];
        } else {
          assert rows[j] == last[j - |before|];
        }
      }
    }
  }

  /** Text indices that never decrease and cover 0 .. n - 1 exactly. */
  predicate InOrderCovering(ids: seq<nat>, n: nat)
  {
    (forall j, k :: 0 <= j < k < |ids| ==> ids[j] <= ids[k]) &&
    (forall i :: 0 <= i < n ==> i in ids) &&
    (forall j :: 0 <= j < |ids| ==> ids[j] < n)
  }

  /** The rows come in input order, and every text has at least one. */
  lemma {:induction false} BatchRowsOrdered(texts: seq<string>, results: seq<Value>, encode: Value -> string)
    requires |results| == |texts|
    ensures InOrderCovering(RowIds(BatchRows(texts, results, encode)), |texts|)
  {
    if texts != [] {
      var n := |texts| - 1;
      BatchRowsOrdered(texts[..n], results[..n], encode);
      var rowsBefore := BatchRows(texts[..n], results[..n], encode);
      var rowsLast := RowsFor(n, texts[n], results[n], encode);
      var before := RowIds(rowsBefore);
      var last := RowIds(rowsLast);
      assert BatchRows(texts, results, encode) == rowsBefore + rowsLast;
      var ids := RowIds(rowsBefore + rowsLast);
      assert ids == before + last by {
        MapAppend(rowsBefore, rowsLast, (row: Row) => row.textId);
      }
      assert forall k :: 0 <= k < |last| ==> last[k] == n;
      assert last[0] == n;
    }
  }

  /** A text whose service call fails still gets a processed row, with no entities. */
  lemma FailedCallGivesEmptyRow(texts: seq<string>, service: (nat, string) -> Result<string>,
                           decode: string -> Option<Value>, encode: Value -> string, i: nat)
    requires i < |texts| && service(i, texts[i]).Failure?
    ensures var rows := BatchRows(texts, ExtractAll(texts, service, decode), encode);
            exists j :: 0 <= j < |rows| && rows[j] == Row(i, texts[i], encode(Array([])), 0, true, None)
  {
    var results := ExtractAll(texts, service, decode);
    BatchRowsContain(texts, results, encode, i);
  }

  /** The first row of text `i` is its result row. */
  lemma {:induction false} BatchRowsContain(texts: seq<string>, results: seq<Value>, encode: Value -> string, i: nat)
    requires |results| == |texts| && i < |texts|
    ensures var rows := BatchRows(texts, results, encode);
            exists j :: 0 <= j < |rows| && rows[j] == RowsFor(i, texts[i], results[i], encode)[0]
  {
    var n := |texts| - 1;
    var before := BatchRows(texts[..n], results[..n], encode);
    var last := RowsFor(n, texts[n], results[n], encode);
    assert BatchRows(texts, results, encode) == before + last;
    if i < n {
      BatchRowsContain(texts[..n], results[..n], encode, i);
      assert texts[..n][i] == texts[i] && results[..n][i] == results[i];
      var first := RowsFor(i, texts[i], results[i], encode)[0];
      var j :| 0 <= j < |before| && before[j] == first;
      assert (before + last)[j] == first;
    } else {
      assert (before + last)[|before|] == last[0];
    }
  }

  /**
   * The number of pauses over the first `n` texts: text `i` is followed by
   * one when `(i + 1) % batch_size == 0`. Python's floored `%` and Dafny's
   * Euclidean `%` are zero for the same operands, negative divisors included.
   */
  function Pauses(n: nat, batchSize: int): nat
    requires batchSize != 0
  {
    if n == 0 then 0 else Pauses(n - 1, batchSize) + (if n % batchSize == 0 then 1 else 0)
  }

  lemma MulAtLeast(m: int, d: int)
    requires m > 0 && d >= 1
    ensures m * d >= m
  {
  }

  /** Quotient and remainder are unique. */
  lemma DivUnique(n: int, m: int, q: int, r: int)
    requires m > 0 && 0 <= r < m && n == m * q + r
    ensures n / m == q && n % m == r
  {
    var q', r' := n / m, n % m;
    assert n == m * q' + r';
    var d := q - q';
    assert m * q == m * q' + m * d;
    if d > 0 {
      MulAtLeast(m, d);
    } else if d < 0 {
      MulAtLeast(m, -d);
    }
  }

  /** A negative divisor leaves the same Euclidean remainder as its absolute value. */
  lemma ModNegativeDivisor(n: int, b: int)
    requires b < 0
    ensures n % b == n % (-b)
  {
    DivUnique(n, -b, -(n / b), n % b);
  }

  /** From n - 1 to n the quotient grows exactly when m divides n. */
  lemma DivStep(n: nat, m: int)
    requires n > 0 && m > 0
    ensures n / m == (n - 1) / m + (if n % m == 0 then 1 else 0)
  {
    var q, r := (n - 1) / m, (n - 1) % m;
    if r + 1 == m {
      DivUnique(n, m, q + 1, 0);
    } else {
      DivUnique(n, m, q, r + 1);
    }
  }

  /** N texts with batch size b pause ⌊N / |b|⌋ times. */
  lemma {:induction false} PausesCount(n: nat, batchSize: int)
    requires batchSize != 0
    ensures Pauses(n, batchSize) == n / (if batchSize < 0 then -batchSize else batchSize)
  {
    if n > 0 {
      PausesCount(n - 1, batchSize);
      if batchSize < 0 {
        ModNegativeDivisor(n, batchSize);
        DivStep(n, -batchSize);
      } else {
        DivStep(n, batchSize);
      }
    }
  }

  /** The outcome of `batch_process_texts`. */
  datatype BatchOutcome =
    | Processed(rows: seq<Row>, pauses: nat)
    | MissingApiKey   // SimpleNER() raised ValueError before any text
    | ZeroDivision    // `(i + 1) % 0` raised after the first text's rows

  /**
   * `batch_process_texts(texts, batch_size)` with the environment it reads
   * the API key from.
   */
  method BatchProcessTexts(env: map<string, string>, texts: seq<string>, batchSize: int,
                           service: (nat, string) -> Result<string>,
                           decode: string -> Option<Value>, encode: Value -> string)
    returns (outcome: BatchOutcome)
    ensures !HasApiKey(env) ==> outcome == MissingApiKey
    ensures HasApiKey(env) && batchSize == 0 && texts != [] ==> outcome == ZeroDivision
    ensures HasApiKey(env) && batchSize != 0 ==>
              outcome == Processed(BatchRows(texts, ExtractAll(texts, service, decode), encode), Pauses(|texts|, batchSize))
    ensures HasApiKey(env) && texts == [] ==> outcome == Processed([], 0)
  {
    if !HasApiKey(env) {
      return MissingApiKey;
    }
    ghost var results := ExtractAll(texts, service, decode);
    var rows: seq<Row> := [];
    var pauses := 0;
    for i := 0 to |texts|
      invariant rows == BatchRows(texts[..i], results[..i], encode)
      invariant batchSize != 0 ==> pauses == Pauses(i, batchSize)
      invariant batchSize == 0 ==> i == 0 && pauses == 0
    {
      var entities := ExtractEntities(service(i, texts[i]), decode);
      var added := RowsFor(i, texts[i], entities, encode);
      BatchRowsStep(texts, results, encode, i);
      rows := rows + added;
      if batchSize == 0 {
        return ZeroDivision;
      }
      if (i + 1) % batchSize == 0 {
        pauses := pauses + 1;
      }
    }
    assert texts[..|texts|] == texts;
    assert results[..|texts|] == results;
    outcome := Processed(rows, pauses);
  }

  // ---------------------------------------------------------------------------
  // analyze_results

  /**
   * What the entity part of `analyze_results` ends with: an exception while
   * building the type distribution (an entity that is not a dict makes
   * `.get` raise AttributeError, a label that cannot be a dict key raises
   * TypeError); the distribution followed by an exception of `sum` on a
   * confidence that is not a number; or the distribution and the
   * confidence statistics.
   */
  datatype EntityStats =
    | TypesRaised
    | ConfidencesRaised(typeCounts: seq<(Value, nat)>)
    | Stats(typeCounts: seq<(Value, nat)>)

  /** What `analyze_results` prints, apart from the values of the confidence statistics. */
  datatype Analysis = Analysis(total: nat, processed: nat, entities: int, average: Option<real>, stats: EntityStats)

  function ProcessedCount(rows: seq<Row>): nat
  {
    if rows == [] then 0 else (if rows[0].processed then 1 else 0) + ProcessedCount(rows[1..])
  }

  function EntityTotal(rows: seq<Row>): nat
  {
    if rows == [] then 0 else rows[0].entityCount + EntityTotal(rows[1..])
  }

  /**
   * What `all_entities.extend(json.loads(...))` collects, in row order: the
   * elements of every row's decoded "entities" value; a row that does not
   * decode, or whose value cannot be iterated, is skipped by the bare
   * `except`.
   */
  function AllEntities(rows: seq<Row>, decode: string -> Option<Value>): seq<Value>
  {
    if rows == [] then []
    else
      var before := AllEntities(rows[..|rows| - 1], decode);
      match decode(rows[|rows| - 1].entities)
      case None => before
      case Some(v) => if Elements(v).Some? then before + Elements(v).value else before
  }

  /** Entities whose labels can be collected and counted: dicts with hashable labels. */
  predicate Countable(entities: seq<Value>)
  {
    forall i :: 0 <= i < |entities| ==> entities[i].Object? && Hashable(LabelOf(entities[i]))
  }

  /** `entity.get('confidence', 0)` of every entity is a number `sum`, `max` and `min` accept. */
  predicate ConfidencesNumeric(entities: seq<Value>)
  {
    forall i :: 0 <= i < |entities| ==> Numeric(Get(entities[i], "confidence", Num(0.0)))
  }

  /** The entity-type distribution: counts per label, largest first, ties in first-appearance order. */
  function TypeCounts(entities: seq<Value>): seq<(Value, nat)>
  {
    RankByCount(Counts(Map(entities, LabelOf)))
  }

  /**
   * `analyze_results(df)` over the rows of the batch, with `json.loads` as
   * `decode`. An empty DataFrame has no 'processed' column, so it raises
   * KeyError (`None` here).
   */
  method AnalyzeResults(rows: seq<Row>, decode: string -> Option<Value>) returns (r: Option<Analysis>)
    ensures r.None? <==> rows == []
    ensures r.Some? ==> r.value.total == |rows| && r.value.processed == ProcessedCount(rows) &&
                        r.value.entities == EntityTotal(rows)
    ensures r.Some? ==> (r.value.average.Some? <==> r.value.processed > 0)
    ensures r.Some? && r.value.average.Some? ==> r.value.average.value == r.value.entities as real / r.value.processed as real
    ensures r.Some? ==> (r.value.stats.TypesRaised? <==> !Countable(AllEntities(rows, decode)))
    ensures r.Some? ==> (r.value.stats.ConfidencesRaised? <==>
                           Countable(AllEntities(rows, decode)) && !ConfidencesNumeric(AllEntities(rows, decode)))
    ensures r.Some? && !r.value.stats.TypesRaised? ==> r.value.stats.typeCounts == TypeCounts(AllEntities(rows, decode))
  {
    if rows == [] {
      return None;
    }
    var processed := ProcessedCount(rows);
    var total := EntityTotal(rows);
    var average := if processed > 0 then Some(total as real / processed as real) else None;
    var all: seq<Value> := [];
    for i := 0 to |rows|
      invariant all == AllEntities(rows[..i], decode)
    {
      assert rows[..i + 1][..i] == rows[..i];
      var decoded := decode(rows[i].entities);
      if decoded.Some? && Elements(decoded.value).Some? {
        all := all + Elements(decoded.value).value;
      }
    }
    assert rows[..|rows|] == rows;
    if !Countable(all) {
      return Some(Analysis(|rows|, processed, total, average, TypesRaised));
    }
    var items := CountItems(Map(all, LabelOf));
    var typeCounts := RankByCount(items);
    if !ConfidencesNumeric(all) {
      return Some(Analysis(|rows|, processed, total, average, ConfidencesRaised(typeCounts)));
    }
    r := Some(Analysis(|rows|, processed, total, average, Stats(typeCounts)));
  }

  /**
   * The distribution lists each label once with its number of entities,
   * largest first, and the counts add up to the number of decoded entities.
   */
  lemma TypeCountsCorrect(entities: seq<Value>)
    ensures NonIncreasing(TypeCounts(entities))
    ensures PairSum(TypeCounts(entities)) == |entities|
    ensures forall i :: 0 <= i < |TypeCounts(entities)| ==>
              TypeCounts(entities)[i].1 == Occurrences(Map(entities, LabelOf), TypeCounts(entities)[i].0)
  {
    var labels := Map(entities, LabelOf);
    RankByCountSorted(Counts(labels));
    RankedCountsSumToLength(labels);
    forall i | 0 <= i < |TypeCounts(entities)|
      ensures TypeCounts(entities)[i].1 == Occurrences(labels, TypeCounts(entities)[i].0)
    {
      RankedCountsExact(labels, i);
    }
  }
}
