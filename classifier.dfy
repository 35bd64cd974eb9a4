/** The classifier round trip of `analyze-email`: the two-message prompt
    built from a validated request, and the sanitizer that turns the model's
    free-text reply into an analysis object without ever failing. */
module Classifier {
  import opened Wrappers
  import opened Json
  import opened Text
  import opened EmailSchema

  const Model: string := "gpt-4o-mini"

  const SystemInstruction: string :=
    "You are an advanced email security analyst AI. Return a JSON object with:\n"
    + "- riskScore (0-100)\n"
    + "- riskLevel (\"safe\" | \"suspicious\" | \"dangerous\")\n"
    + "- threatIndicators (array)\n"
    + "- analysisSummary (string)"

  /** How much of the body the classifier is shown. */
  const ContentLimit: nat := 2000

  /** How much of the raw reply a fallback analysis keeps as its summary. */
  const SummaryLimit: nat := 500

  const UnparsableIndicator: string := "Unable to parse AI analysis"

  /** The chat completion request: model, system message, user message. */
  datatype Prompt = Prompt(model: string, system: string, user: string)

  /** A boolean interpolated into a template literal. */
  function BoolText(b: bool): string {
    if b then "true" else "false"
  }

  /** Everything of the user message that comes before the content excerpt. */
  function UserHeader(r: AnalysisRequest): string {
    "Analyze this email:\n\nSubject: " + r.subject
    + "\nSender: " + r.sender + " <" + r.senderEmail + ">"
    + "\nHas Attachments: " + BoolText(r.hasAttachments)
    + "\nContent: "
  }

  /** The completion request for a validated email: the fixed model and
      system message, and a user message that starts with the header and
      ends with exactly the first min(|content|, 2000) characters of the
      content, and nothing of the content beyond them. */
  function BuildPrompt(r: AnalysisRequest): (p: Prompt)
    ensures p.model == "gpt-4o-mini" && p.system == SystemInstruction
    ensures var n := if |r.content| < ContentLimit then |r.content| else ContentLimit;
      && |p.user| == |UserHeader(r)| + n
      && p.user[..|UserHeader(r)|] == UserHeader(r)
      && p.user[|UserHeader(r)|..] == r.content[..n]
  {
    var user := UserHeader(r) + Take(r.content, ContentLimit);
    assert user[|UserHeader(r)|..] == Take(r.content, ContentLimit);
    Prompt(Model, SystemInstruction, user)
  }

  /** Two requests that agree on everything but content past the first 2000
      characters yield the same prompt: later text is never inspected. */
  lemma PromptIgnoresContentTail(r1: AnalysisRequest, r2: AnalysisRequest)
    requires r1.(content := r2.content) == r2
    requires |r1.content| >= ContentLimit && |r2.content| >= ContentLimit
    requires r1.content[..ContentLimit] == r2.content[..ContentLimit]
    ensures BuildPrompt(r1) == BuildPrompt(r2)
  {
  }

  /** The index of the first occurrence of `c` in `s`. */
  function FirstIndexOf(s: string, c: char): (r: Option<nat>)
    ensures r.Some? ==> r.value < |s| && s[r.value] == c && forall k :: 0 <= k < r.value ==> s[k] != c
    ensures r.None? ==> forall k :: 0 <= k < |s| ==> s[k] != c
  {
    if s == [] then None
    else if s[0] == c then Some(0)
    else match FirstIndexOf(s[1..], c)
      case None => None
      case Some(i) => Some(i + 1)
  }

  /** The index of the last occurrence of `c` in `s`. */
  function LastIndexOf(s: string, c: char): (r: Option<nat>)
    ensures r.Some? ==> r.value < |s| && s[r.value] == c && forall k :: r.value < k < |s| ==> s[k] != c
    ensures r.None? ==> forall k :: 0 <= k < |s| ==> s[k] != c
  {
    if s == [] then None
    else if s[|s| - 1] == c then Some(|s| - 1)
    else LastIndexOf(s[..|s| - 1], c)
  }

  /** The match of `/\{[\s\S]*\}/` in `s`: from the first `{` to the last
      `}`, when that `}` comes after that `{`. */
  function BraceSpan(s: string): (r: Option<string>)
    ensures r.Some? ==> 2 <= |r.value| <= |s| && r.value[0] == '{' && r.value[|r.value| - 1] == '}'
  {
    match (FirstIndexOf(s, '{'), LastIndexOf(s, '}'))
    case (Some(i), Some(j)) => if i < j then Some(s[i..j + 1]) else None
    case _ => None
  }

  /** A span exists iff some `{` comes before some `}`; it then runs from the
      first `{` to the last `}` inclusive. */
  lemma BraceSpanSpec(s: string)
    ensures BraceSpan(s).Some? <==> exists i, j :: 0 <= i < j < |s| && s[i] == '{' && s[j] == '}'
    ensures BraceSpan(s).Some? ==>
      exists i, j :: 0 <= i < j < |s| && BraceSpan(s).value == s[i..j + 1]
        && s[i] == '{' && (forall k :: 0 <= k < i ==> s[k] != '{')
        && s[j] == '}' && (forall k :: j < k < |s| ==> s[k] != '}')
  {
    var first, last := FirstIndexOf(s, '{'), LastIndexOf(s, '}');
    if exists i, j :: 0 <= i < j < |s| && s[i] == '{' && s[j] == '}' {
      var i, j :| 0 <= i < j < |s| && s[i] == '{' && s[j] == '}';
      assert first.Some? && first.value <= i;
      assert last.Some? && j <= last.value;
    }
  }

  /** `completion.choices[0]?.message?.content || ""`. */
  function ReplyText(content: Option<string>): string {
    match content
    case None => ""
    case Some(t) => t
  }

  /** The fixed analysis used when the reply holds no usable JSON object. */
  function Fallback(text: string, indicators: seq<Value>): (a: map<string, Value>)
    ensures a.Keys == {"riskScore", "riskLevel", "threatIndicators", "analysisSummary"}
  {
    map["riskScore" := JNumber(15.0), "riskLevel" := JString("safe"),
        "threatIndicators" := JArray(indicators),
        "analysisSummary" := JString(Take(text, SummaryLimit))]
  }

  /** The sanitizer. `parse` is `JSON.parse`, a partial function: `None`
      stands for a thrown syntax error. Applied to a text that starts with
      `{` it can only produce an object, so its result type is an object's
      fields. It never fails: every reply yields an analysis. */
  function Sanitize(parse: string -> Option<map<string, Value>>, content: Option<string>): (a: map<string, Value>)
    ensures var text := ReplyText(content);
      || (BraceSpan(text).Some? && parse(BraceSpan(text).value) == Some(a))
      || (&& a.Keys == {"riskScore", "riskLevel", "threatIndicators", "analysisSummary"}
          && a["riskScore"] == JNumber(15.0) && a["riskLevel"] == JString("safe")
          && a["analysisSummary"] == JString(Take(text, SummaryLimit)))
  {
    var text := ReplyText(content);
    match BraceSpan(text)
    case None => Fallback(text, [])
    case Some(span) =>
      match parse(span)
      case Some(obj) => obj
      case None => Fallback(text, [JString(UnparsableIndicator)])
  }

  /** The three outcomes of the sanitizer: no span gives the fallback with
      no indicators, an unparsable span the fallback with one diagnostic
      indicator, and a parsed object is used as it is, unchecked. */
  lemma SanitizeCases(parse: string -> Option<map<string, Value>>, content: Option<string>)
    ensures var text := ReplyText(content);
      var a := Sanitize(parse, content);
      && (!(exists i, j :: 0 <= i < j < |text| && text[i] == '{' && text[j] == '}') ==> a == Fallback(text, []))
      && (BraceSpan(text).Some? && parse(BraceSpan(text).value).None? ==>
            a == Fallback(text, [JString(UnparsableIndicator)]))
      && (BraceSpan(text).Some? && parse(BraceSpan(text).value).Some? ==> a == parse(BraceSpan(text).value).value)
  {
    BraceSpanSpec(ReplyText(content));
  }

  /** A fallback analysis is well formed: score 15 within 0..100, level
      "safe", and a summary that is the first min(|reply|, 500) characters
      of the reply. */
  lemma FallbackWellFormed(text: string, indicators: seq<Value>)
    ensures var a := Fallback(text, indicators);
      && a["riskScore"].JNumber? && 0.0 <= a["riskScore"].n <= 100.0
      && a["riskLevel"] == JString("safe")
      && a["analysisSummary"].JString?
      && |a["analysisSummary"].s| == (if |text| < SummaryLimit then |text| else SummaryLimit)
      && a["analysisSummary"].s == text[..|a["analysisSummary"].s|]
  {
  }

  /** A missing reply is the empty reply, which has no span. */
  lemma MissingReplyFallsBack(parse: string -> Option<map<string, Value>>)
    ensures Sanitize(parse, None) == Fallback("", [])
    ensures Sanitize(parse, Some("")) == Fallback("", [])
  {
  }

  /** A reply of prose without any brace is summarised in full when it is
      at most 500 characters long, with score 15 and level "safe". */
  lemma ProseReplySummarisedWhole(parse: string -> Option<map<string, Value>>, text: string)
    requires forall k :: 0 <= k < |text| ==> text[k] != '{'
    requires |text| <= SummaryLimit
    ensures var a := Sanitize(parse, Some(text));
      a["riskScore"] == JNumber(15.0) && a["riskLevel"] == JString("safe")
      && a["threatIndicators"] == JArray([]) && a["analysisSummary"] == JString(text)
  {
    BraceSpanSpec(text);
  }
}
