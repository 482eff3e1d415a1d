/**
 * The decision oracle's client: takes the oracle's reply, extracts the
 * outermost brace-delimited block of its first text block, parses it as a
 * decision, and turns every failure on the way into a safe "do nothing"
 * decision. The remote call itself is not modelled: its reply (or the error
 * it raised) is a parameter, and so is the JSON parser.
 */
module ClaudeAnalyzer {
  import opened Wrappers
  import opened Types
  import Strings

  /** A block of the reply's content: text, or anything else (tool use, ...). */
  datatype ContentBlock = TextBlock(text: string) | OtherBlock

  /** What a failure threw: an `Error` with its message, or some other value. */
  datatype Thrown = ErrorObject(message: string) | NonError

  /** The oracle's answer: a list of content blocks, or the failure of the call. */
  datatype Reply = Replied(content: seq<ContentBlock>) | CallFailed(error: Thrown)

  const FALLBACK_PREFIX := "AI Analysis failed due to error: "
  const NO_JSON := "Could not parse JSON from Claude response"
  /** What reading the type of a missing first block throws. */
  const EMPTY_CONTENT := "Cannot read properties of undefined (reading 'type')"

  /** `s[i]` opens and `s[j]` closes a brace-delimited block. */
  predicate IsBlock(s: string, i: int, j: int) {
    0 <= i < j < |s| && s[i] == '{' && s[j] == '}'
  }

  /** The block from the first '{' to the last '}'. */
  predicate IsOutermost(s: string, i: int, j: int) {
    IsBlock(s, i, j) && '{' !in s[..i] && '}' !in s[j + 1..]
  }

  /**
   * The match of the greedy pattern "{, anything, }": it exists iff some '}'
   * follows some '{', and then it runs from the first '{' to the last '}'.
   */
  function ExtractJson(s: string): (r: Option<string>)
    ensures r.Some? <==> exists i, j :: IsBlock(s, i, j)
    ensures r.Some? ==> exists i, j :: IsOutermost(s, i, j) && r.value == s[i..j + 1]
  {
    var first := Strings.FirstIndexOf(s, '{');
    var last := Strings.LastIndexOf(s, '}');
    if first.Some? && last.Some? && first.value < last.value then
      assert IsOutermost(s, first.value, last.value);
      Some(s[first.value..last.value + 1])
    else
      None
  }

  /** The text of the first block, or "" when it is not a text block. */
  function FirstText(content: seq<ContentBlock>): string
    requires |content| > 0
  {
    if content[0].TextBlock? then content[0].text else ""
  }

  /** The JSON candidate of a reply, when it has a first block holding one. */
  function ReplyJson(reply: Reply): Option<string> {
    if reply.Replied? && |reply.content| > 0 then ExtractJson(FirstText(reply.content)) else None
  }

  /** The safe default: no action, zero confidence, the error's message as the reasoning. */
  function Fallback(error: Thrown): (d: AIDecision)
    ensures d.action.None? && d.confidence == 0.0 && d.alternatives == []
    ensures Strings.StartsWith(d.reasoning, FALLBACK_PREFIX)
    ensures error.NonError? ==> d.reasoning == FALLBACK_PREFIX + "Unknown"
    ensures error.ErrorObject? ==> d.reasoning == FALLBACK_PREFIX + error.message
  {
    var d := AIDecision(None, 0.0, FALLBACK_PREFIX + (if error.ErrorObject? then error.message else "Unknown"), []);
    assert d.reasoning[..|FALLBACK_PREFIX|] == FALLBACK_PREFIX;
    d
  }

  /**
   * `analyzeSituation`. The project, anomalies and metrics only shape the
   * prompt, whose answer is `reply`. The result is the parsed decision
   * exactly when the reply's first block holds a block that parses;
   * otherwise it is the fallback for the first failure on the way.
   */
  function AnalyzeSituation(projectName: string, anomalies: seq<Anomaly>, metrics: ProjectMetrics,
                            reply: Reply, parse: string -> Result<AIDecision>): (d: AIDecision)
    ensures ReplyJson(reply).Some? && parse(ReplyJson(reply).value).Success? ==>
              d == parse(ReplyJson(reply).value).value
    ensures reply.CallFailed? ==> d == Fallback(reply.error)
    ensures reply.Replied? && reply.content == [] ==> d == Fallback(ErrorObject(EMPTY_CONTENT))
    ensures reply.Replied? && reply.content != [] && ReplyJson(reply).None? ==> d == Fallback(ErrorObject(NO_JSON))
    ensures ReplyJson(reply).Some? && parse(ReplyJson(reply).value).Failure? ==>
              d == Fallback(ErrorObject(parse(ReplyJson(reply).value).error))
  {
    match reply
    case CallFailed(e) => Fallback(e)
    case Replied(content) =>
      if |content| == 0 then Fallback(ErrorObject(EMPTY_CONTENT))
      else
        var json := ExtractJson(FirstText(content));
        if json.None? then Fallback(ErrorObject(NO_JSON))
        else
          match parse(json.value)
          case Failure(msg) => Fallback(ErrorObject(msg))
          case Success(decision) => decision
  }

  /** A reply whose first block is not text never yields a parsed decision. */
  lemma NonTextFallsBack(projectName: string, anomalies: seq<Anomaly>, metrics: ProjectMetrics,
                         content: seq<ContentBlock>, parse: string -> Result<AIDecision>)
    requires |content| > 0 && content[0].OtherBlock?
    ensures AnalyzeSituation(projectName, anomalies, metrics, Replied(content), parse) == Fallback(ErrorObject(NO_JSON))
  {
    assert !IsBlock("", 0, 0);
  }

  /**
   * Prose around the block does not matter: a text that is a brace-free
   * prefix, a block, and a brace-free suffix yields exactly that block.
   */
  lemma {:induction false} ExtractFromProse(before: string, block: string, after: string)
    requires |block| >= 2 && block[0] == '{' && block[|block| - 1] == '}'
    requires '{' !in before && '}' !in before && '{' !in after && '}' !in after
    ensures ExtractJson(before + block + after) == Some(block)
  {
    var s := before + block + after;
    var i, j := |before|, |before| + |block| - 1;
    assert s[..i] == before && s[i] == '{';
    assert s[j + 1..] == after && s[j] == '}';
    Strings.FirstIndexAt(s, '{', i);
    Strings.LastIndexAt(s, '}', j);
    assert s[i..j + 1] == block;
  }

}
