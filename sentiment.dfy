/**
 * The sentiment classifier of AI_01/test.py: one model call per text, the
 * reply decoded as JSON with two fallbacks, the texts read from a file with
 * blank lines dropped, the three default texts, and the tally of the
 * sentiments.
 *
 * The model service is a parameter mapping (call index, text) to the reply
 * content or to the message of the exception it raised; `json.loads` is a
 * parameter mapping the content to a JSON value or `None` for a
 * JSONDecodeError.
 */
module Sentiment {
  import opened Base
  import opened Text
  import opened Tally
  import opened Json
  import NerSimple

  /** The result of a reply that is not valid JSON. */
  const DecodeFallback: Value :=
    Object([("sentiment", Str("neutral")), ("confidence", Num(0.5)), ("error", Str("JSON 解析失敗"))])

  /** The result of any other failure, carrying the exception's message. */
  function ErrorFallback(message: string): Value
  {
    Object([("sentiment", Str("neutral")), ("confidence", Num(0.0)), ("error", Str(message))])
  }

  /**
   * One iteration of `classify_sentiment`: the decoded reply as it is, with
   * no fence stripping; the 0.5 result when it does not decode; the 0.0
   * result with the message when the call raised.
   */
  function ClassifyOne(reply: Result<string>, decode: string -> Option<Value>): (r: Value)
    ensures reply.Failure? ==> r == ErrorFallback(reply.error)
    ensures reply.Success? && decode(reply.value).None? ==> r == DecodeFallback
    ensures reply.Success? && decode(reply.value).Some? ==> r == decode(reply.value).value
  {
    match reply
    case Failure(message) => ErrorFallback(message)
    case Success(content) =>
      match decode(content)
      case None => DecodeFallback
      case Some(j) => j
  }

  /** One result per text, in input order; call `i` of the service is for text `i`. */
  function Classified(texts: seq<string>, service: (nat, string) -> Result<string>, decode: string -> Option<Value>)
    : (results: seq<Value>)
    ensures |results| == |texts|
    ensures forall i :: 0 <= i < |texts| ==> results[i] == ClassifyOne(service(i, texts[i]), decode)
  {
    seq(|texts|, i requires 0 <= i < |texts| => ClassifyOne(service(i, texts[i]), decode))
  }

  /** `classify_sentiment(texts)`: exactly one result per text, whatever the service does. */
  method ClassifySentiment(texts: seq<string>, service: (nat, string) -> Result<string>, decode: string -> Option<Value>)
    returns (results: seq<Value>)
    ensures results == Classified(texts, service, decode)
  {
    results := [];
    for i := 0 to |texts|
      invariant |results| == i
      invariant forall t :: 0 <= t < i ==> results[t] == ClassifyOne(service(t, texts[t]), decode)
    {
      var result: Value;
      var reply := service(i, texts[i]);
      if reply.Failure? {
        result := ErrorFallback(reply.error);
      } else {
        var decoded := decode(reply.value);
        if decoded.None? {
          result := DecodeFallback;
        } else {
          result := decoded.value;
        }
      }
      results := results + [result];
    }
  }

  /** A decoder that, like `json.loads`, rejects text that starts with a backtick. */
  ghost predicate RejectsBacktick<J>(decode: string -> Option<J>)
  {
    forall s: string :: |s| > 0 && s[0] == '`' ==> decode(s).None?
  }

  /**
   * The reply is decoded as it arrives: a reply fenced as "```json" … "```"
   * gets the 0.5 fallback here, while the NER extractor, which strips the
   * fences, decodes its body.
   */
  lemma FencedReplyFallsBack(body: string, decode: string -> Option<Value>)
    requires RejectsBacktick(decode)
    ensures ClassifyOne(Success(NerSimple.JsonFence + body + NerSimple.Fence), decode) == DecodeFallback
  {
    var s := NerSimple.JsonFence + body + NerSimple.Fence;
    assert s[0] == '`';
  }

  // ---------------------------------------------------------------------------
  // load_texts_from_file and main

  /**
   * `load_texts_from_file(filename)`: `file` holds the lines of the file,
   * or is `None` when it is missing or cannot be read (both give `[]`).
   */
  function LoadTextsFromFile(file: Option<seq<string>>): (texts: seq<string>)
  {
    match file
    case None => []
    case Some(lines) => NonEmpty(Map(lines, Trim))
  }

  /**
   * The loaded texts are the file's lines trimmed, blank ones dropped: each
   * text is non-empty and already trimmed, and a string is a text exactly
   * when it is non-empty and some line trims to it.
   */
  lemma LoadTextsCorrect(lines: seq<string>, t: string)
    ensures |LoadTextsFromFile(Some(lines))| <= |lines|
    ensures t in LoadTextsFromFile(Some(lines)) ==> t != "" && Trim(t) == t
    ensures t in LoadTextsFromFile(Some(lines)) <==> t != "" && t in Map(lines, Trim)
  {
    var trimmed := Map(lines, Trim);
    FilterMember(trimmed, (p: string) => p != "", t);
    if t in trimmed {
      var i :| 0 <= i < |trimmed| && trimmed[i] == t;
      TrimIdempotent(lines[i]);
    }
  }

  /** The texts `main` falls back to when the file yields nothing. */
  const DefaultTexts: seq<string> := ["太棒了！", "很失望", "還不錯"]

  /** The texts `main` classifies: those of demo.txt, or the defaults when there are none. */
  function ScriptTexts(file: Option<seq<string>>): (texts: seq<string>)
    ensures texts != []
  {
    var loaded := LoadTextsFromFile(file);
    if loaded == [] then DefaultTexts else loaded
  }

  /**
   * The display loop prints `result.get('confidence', 0)` with `:.2f`: it
   * gets through a result that is a dict whose confidence is a number, and
   * raises on anything else (AttributeError, TypeError or ValueError).
   */
  predicate Displays(result: Value)
  {
    result.Object? && Numeric(Get(result, "confidence", Num(0.0)))
  }

  /** `result.get('sentiment', 'unknown')`. */
  function SentimentOf(result: Value): Value
  {
    Get(result, "sentiment", Str("unknown"))
  }

  /** The tally loop uses the sentiment as a dict key, which raises TypeError on a list or a dict. */
  predicate Tallies(result: Value)
  {
    result.Object? && Hashable(SentimentOf(result))
  }

  predicate AllDisplay(results: seq<Value>)
  {
    forall i :: 0 <= i < |results| ==> Displays(results[i])
  }

  predicate AllTally(results: seq<Value>)
  {
    forall i :: 0 <= i < |results| ==> Tallies(results[i])
  }

  /** The sentiment of each result, the key the tally counts it under. */
  function Sentiments(results: seq<Value>): (r: seq<Value>)
    ensures |r| == |results|
    ensures forall i :: 0 <= i < |results| ==> r[i] == SentimentOf(results[i])
  {
    if results == [] then []
    else [SentimentOf(results[0])] + Sentiments(results[1..])
  }

  /** Both fallback results get through the display and the tally, under "neutral". */
  lemma FallbacksTally(message: string)
    ensures Displays(DecodeFallback) && Tallies(DecodeFallback) && SentimentOf(DecodeFallback) == Str("neutral")
    ensures Displays(ErrorFallback(message)) && Tallies(ErrorFallback(message)) &&
            SentimentOf(ErrorFallback(message)) == Str("neutral")
  {
    var d := DecodeFallback.members;
    assert Lookup(d, "confidence") == Some(Num(0.5)) by {
      assert Lookup(d[..2], "confidence") == Some(Num(0.5));
    }
    assert Lookup(d, "sentiment") == Some(Str("neutral")) by {
      assert Lookup(d[..1], "sentiment") == Some(Str("neutral"));
      assert d[..2][..1] == d[..1];
    }
    var e := ErrorFallback(message).members;
    assert Lookup(e, "confidence") == Some(Num(0.0)) by {
      assert Lookup(e[..2], "confidence") == Some(Num(0.0));
    }
    assert Lookup(e, "sentiment") == Some(Str("neutral")) by {
      assert Lookup(e[..1], "sentiment") == Some(Str("neutral"));
      assert e[..2][..1] == e[..1];
    }
  }

  /** When no reply decodes, every result is a fallback, so both loops of `main` get through. */
  lemma FallbackResultsTally(texts: seq<string>, service: (nat, string) -> Result<string>, decode: string -> Option<Value>)
    requires forall i :: 0 <= i < |texts| ==> service(i, texts[i]).Failure? || decode(service(i, texts[i]).value).None?
    ensures AllDisplay(Classified(texts, service, decode)) && AllTally(Classified(texts, service, decode))
    ensures forall i :: 0 <= i < |texts| ==> Sentiments(Classified(texts, service, decode))[i] == Str("neutral")
  {
    var results := Classified(texts, service, decode);
    forall i | 0 <= i < |texts|
      ensures Displays(results[i]) && Tallies(results[i]) && SentimentOf(results[i]) == Str("neutral")
    {
      var reply := service(i, texts[i]);
      FallbacksTally(if reply.Failure? then reply.error else "");
    }
  }

  /** The results `main` gets back from `classify_sentiment`. */
  function ScriptResults(file: Option<seq<string>>, service: (nat, string) -> Result<string>,
                         decode: string -> Option<Value>): seq<Value>
  {
    Classified(ScriptTexts(file), service, decode)
  }

  /** The display loop of `main`: the index of the first result it cannot print, if any. */
  method DisplayLoop(results: seq<Value>) returns (failed: Option<nat>)
    ensures failed.None? <==> AllDisplay(results)
    ensures failed.Some? ==>
              failed.value < |results| && !Displays(results[failed.value]) && AllDisplay(results[..failed.value])
  {
    for i := 0 to |results|
      invariant AllDisplay(results[..i])
    {
      if !Displays(results[i]) {
        return Some(i);
      }
      assert results[..i + 1] == results[..i] + [results[i]];
    }
    assert results[..|results|] == results;
    return None;
  }

  /** The tally loop of `main`: the index of the first result whose sentiment cannot be a key, if any. */
  method TallyLoop(results: seq<Value>) returns (failed: Option<nat>)
    ensures failed.None? <==> AllTally(results)
    ensures failed.Some? ==>
              failed.value < |results| && !Tallies(results[failed.value]) && AllTally(results[..failed.value])
  {
    for i := 0 to |results|
      invariant AllTally(results[..i])
    {
      if !Tallies(results[i]) {
        return Some(i);
      }
      assert results[..i + 1] == results[..i] + [results[i]];
    }
    assert results[..|results|] == results;
    return None;
  }

  /** How a run of the script ends. */
  datatype Run =
    | MissingApiKey          // exit(1) before anything else
    | DisplayRaised(at: nat) // the display loop raised on result `at`
    | TallyRaised(at: nat)   // the tally loop raised on result `at`
    | Tallied(texts: seq<string>, results: seq<Value>, counts: seq<(Value, nat)>)

  /**
   * The script as a whole: the API key check, the texts of demo.txt or the
   * defaults, one result per text, the display loop, which stops at the
   * first result it cannot print, the tally loop, which stops at the first
   * sentiment that cannot be a dict key, and the tally in first-appearance
   * order, whose counts add up to the number of texts.
   */
  method RunScript(env: map<string, string>, file: Option<seq<string>>,
                   service: (nat, string) -> Result<string>, decode: string -> Option<Value>)
    returns (run: Run)
    ensures !NerSimple.HasApiKey(env) <==> run == MissingApiKey
    ensures var results := ScriptResults(file, service, decode);
            NerSimple.HasApiKey(env) ==> (run.DisplayRaised? <==> !AllDisplay(results))
    ensures var results := ScriptResults(file, service, decode);
            run.DisplayRaised? ==> run.at < |results| && !Displays(results[run.at]) && AllDisplay(results[..run.at])
    ensures var results := ScriptResults(file, service, decode);
            NerSimple.HasApiKey(env) && AllDisplay(results) ==> (run.TallyRaised? <==> !AllTally(results))
    ensures var results := ScriptResults(file, service, decode);
            run.TallyRaised? ==> run.at < |results| && !Tallies(results[run.at]) && AllTally(results[..run.at])
    ensures var results := ScriptResults(file, service, decode);
            NerSimple.HasApiKey(env) && AllDisplay(results) && AllTally(results) ==>
              run == Tallied(ScriptTexts(file), results, Counts(Sentiments(results)))
    ensures run.Tallied? ==> PairSum(run.counts) == |run.texts|
  {
    if !NerSimple.HasApiKey(env) {
      return MissingApiKey;
    }
    var texts := LoadTextsFromFile(file);
    if texts == [] {
      texts := DefaultTexts;
    }
    var results := ClassifySentiment(texts, service, decode);
    assert results == ScriptResults(file, service, decode);
    var undisplayed := DisplayLoop(results);
    if undisplayed.Some? {
      return DisplayRaised(undisplayed.value);
    }
    var untallied := TallyLoop(results);
    if untallied.Some? {
      return TallyRaised(untallied.value);
    }
    var counts := CountItems(Sentiments(results));
    CountsPairSum(Sentiments(results));
    run := Tallied(texts, results, counts);
  }
}
