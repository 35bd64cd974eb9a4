/** The detail page of one scan: how its level and score are presented,
    the link-safety indicator, the threat breakdown, the recommended
    actions, and the chat transcript with the assistant. */
module EmailDetail {
  import opened Wrappers
  import opened Text

  /** One stored scan as the detail page reads it. */
  datatype EmailScan = EmailScan(
    id: string,
    subject: string,
    sender: string,
    senderEmail: string,
    contentPreview: string,
    receivedDate: string,
    riskScore: real,
    riskLevel: string,
    threatIndicators: seq<string>,
    analysisSummary: string,
    hasAttachments: bool)

  const SafeStyle: string := "text-green-600 bg-green-500/10 border-green-500/20"
  const SuspiciousStyle: string := "text-yellow-600 bg-yellow-500/10 border-yellow-500/20"
  const DangerousStyle: string := "text-red-600 bg-red-500/10 border-red-500/20"

  /** `getRiskColor`: the card style of a level, the safe style for any
      level the table does not know. */
  function RiskColor(level: string): (style: string)
    ensures level == "suspicious" ==> style == SuspiciousStyle
    ensures level == "dangerous" ==> style == DangerousStyle
    ensures level !in {"suspicious", "dangerous"} ==> style == SafeStyle
  {
    var colors := map["safe" := SafeStyle, "suspicious" := SuspiciousStyle, "dangerous" := DangerousStyle];
    if level in colors then colors[level] else colors["safe"]
  }

  datatype Icon = CheckCircle | AlertTriangle

  /** `getRiskIcon`. */
  function RiskIcon(level: string): (icon: Icon)
    ensures icon == CheckCircle <==> level == "safe"
  {
    if level == "safe" then CheckCircle else AlertTriangle
  }

  /** A level outside the three known ones is drawn in the safe colour but
      with the warning icon; the three known levels get matching pairs. */
  lemma UnknownLevelMixesSafeAndWarning(level: string)
    ensures level !in {"safe", "suspicious", "dangerous"} ==>
              RiskColor(level) == RiskColor("safe") && RiskIcon(level) != RiskIcon("safe")
    ensures (RiskColor(level) == SafeStyle && RiskIcon(level) == CheckCircle) <==> level == "safe"
  {
  }

  datatype BarColor = Red | Yellow | Green

  /** The colour of the overall risk bar. */
  function ProgressColor(score: real): (c: BarColor)
    ensures c == Red <==> score > 70.0
    ensures c == Yellow <==> 30.0 < score <= 70.0
    ensures c == Green <==> score <= 30.0
  {
    if score > 70.0 then Red else if score > 30.0 then Yellow else Green
  }

  datatype Rating = High | Medium | Low

  /** The "Sender Trust" tile. */
  function SenderTrust(score: real): (t: Rating)
    ensures t == High <==> score < 30.0
    ensures t == Medium <==> 30.0 <= score < 70.0
    ensures t == Low <==> score >= 70.0
  {
    if score < 30.0 then High else if score < 70.0 then Medium else Low
  }

  /** The "Content Risk" tile. */
  function ContentRisk(score: real): (c: Rating)
    ensures c == Low <==> score < 30.0
    ensures c == Medium <==> 30.0 <= score < 70.0
    ensures c == High <==> score >= 70.0
  {
    if score < 30.0 then Low else if score < 70.0 then Medium else High
  }

  /** The two tiles are mirror images on the same cuts. */
  lemma TrustMirrorsContentRisk(score: real)
    ensures SenderTrust(score) == High <==> ContentRisk(score) == Low
    ensures SenderTrust(score) == Low <==> ContentRisk(score) == High
    ensures SenderTrust(score) == Medium <==> ContentRisk(score) == Medium
  {
  }

  /** The rating a bar colour suggests. */
  function BarRating(c: BarColor): Rating {
    match c
    case Green => Low
    case Yellow => Medium
    case Red => High
  }

  /** The bar and the Content Risk tile use different cuts: they disagree
      exactly at scores 30 and 70 (a green bar with Medium risk, a yellow
      bar with High risk). */
  lemma BarAndContentRiskDisagreeAtCuts(score: real)
    ensures BarRating(ProgressColor(score)) != ContentRisk(score) <==> score == 30.0 || score == 70.0
    ensures ProgressColor(70.0) == Yellow && ContentRisk(70.0) == High
    ensures ProgressColor(30.0) == Green && ContentRisk(30.0) == Medium
  {
  }

  /** Some indicator mentions a link, ignoring case. */
  predicate SomeMentionsLink(indicators: seq<string>): (b: bool)
    ensures b <==> exists i :: 0 <= i < |indicators| && Contains(Lower(indicators[i]), "link")
  {
    if indicators == [] then false
    else Contains(Lower(indicators[0]), "link") || SomeMentionsLink(indicators[1..])
  }

  datatype LinkSafety = LinkSuspicious | LinkSafe

  /** The "Link Safety" tile. */
  function LinkSafetyOf(indicators: seq<string>): (s: LinkSafety)
    ensures s == LinkSuspicious <==> exists i :: 0 <= i < |indicators| && Contains(Lower(indicators[i]), "link")
  {
    if SomeMentionsLink(indicators) then LinkSuspicious else LinkSafe
  }

  datatype BreakdownEntry = BreakdownEntry(indicator: string, percent: int)

  function Min(a: int, b: int): int {
    if a < b then a else b
  }

  /** The "Detected Threats" list: the first five indicators, the i-th
      (from 0) drawn at min(100, (i + 1) * 20) percent. */
  function Breakdown(indicators: seq<string>): seq<BreakdownEntry> {
    var shown := indicators[..Min(5, |indicators|)];
    seq(|shown|, i requires 0 <= i < |shown| => BreakdownEntry(shown[i], Min(100, (i + 1) * 20)))
  }

  /** The breakdown shows the first min(5, n) indicators in order, at 20,
      40, 60, 80, 100 percent: strictly increasing and never above 100. */
  lemma BreakdownShape(indicators: seq<string>)
    ensures var b := Breakdown(indicators);
      && |b| == Min(5, |indicators|)
      && (forall i :: 0 <= i < |b| ==> b[i].indicator == indicators[i] && b[i].percent == (i + 1) * 20)
      && (forall i :: 0 <= i < |b| ==> 0 < b[i].percent <= 100)
      && (forall i, j :: 0 <= i < j < |b| ==> b[i].percent < b[j].percent)
  {
  }

  datatype Tone = RedTone | YellowTone | GreenTone

  datatype Action = Action(tone: Tone, text: string)

  /** The "Recommended Actions" card. */
  function RecommendedActions(level: string): seq<Action> {
    (if level == "dangerous" then
       [Action(RedTone, "Delete this email immediately"),
        Action(RedTone, "Report as phishing to your email provider"),
        Action(RedTone, "Do not click any links or open attachments")]
     else [])
    + (if level == "suspicious" then
         [Action(YellowTone, "Exercise caution with this email"),
          Action(YellowTone, "Verify sender identity through alternate channels"),
          Action(YellowTone, "Avoid clicking links or downloading attachments")]
       else [])
    + (if level == "safe" then [Action(GreenTone, "This email appears safe based on our analysis")] else [])
  }

  /** Three actions for dangerous and suspicious, one for safe, none for any
      other level; every action has the level's tone. */
  lemma ActionCounts(level: string)
    ensures |RecommendedActions(level)| ==
      if level == "dangerous" || level == "suspicious" then 3 else if level == "safe" then 1 else 0
    ensures forall k :: 0 <= k < |RecommendedActions(level)| ==>
      RecommendedActions(level)[k].tone ==
        (if level == "dangerous" then RedTone else if level == "suspicious" then YellowTone else GreenTone)
  {
  }

  datatype Role = User | Assistant

  datatype ChatMessage = ChatMessage(role: Role, content: string)

  /** What the page sends about the email along with a question. */
  datatype EmailContext = EmailContext(
    subject: string,
    sender: string,
    riskLevel: string,
    riskScore: real,
    threatIndicators: seq<string>,
    analysisSummary: string)

  datatype ChatRequest = ChatRequest(message: string, emailContext: EmailContext)

  /** What the assistant call produced: the `response` text, or an error. */
  datatype ChatOutcome = Replied(response: string) | ChatFailed

  const ApologyText: string := "I'm having trouble responding right now. Please try again."

  function ContextOf(e: EmailScan): EmailContext {
    EmailContext(e.subject, e.senderEmail, e.riskLevel, e.riskScore, e.threatIndicators, e.analysisSummary)
  }

  /** The assistant message appended for an outcome. */
  function ReplyContent(outcome: ChatOutcome): string {
    match outcome
    case Replied(text) => text
    case ChatFailed => ApologyText
  }

  /** The transcript is a sequence of question and reply pairs. */
  ghost predicate Alternates(messages: seq<ChatMessage>) {
    && |messages| % 2 == 0
    && forall i :: 0 <= i < |messages| ==> messages[i].role == (if i % 2 == 0 then User else Assistant)
  }

  /** The chat card's state: the loaded email, the transcript, the text box
      and the loading flag. */
  class ChatPanel {
    const email: Option<EmailScan>
    var messages: seq<ChatMessage>
    var input: string
    var loading: bool

    /** Between submissions: not loading, and every question has its reply. */
    ghost predicate Valid()
      reads this
    {
      !loading && Alternates(messages)
    }

    /** While a reply is awaited: loading, and the last message is the
      question just asked. */
    ghost predicate Awaiting()
      reads this
    {
      && loading
      && |messages| > 0
      && messages[|messages| - 1].role == User
      && Alternates(messages[..|messages| - 1])
    }

    constructor (email: Option<EmailScan>)
      ensures Valid()
      ensures this.email == email && messages == [] && input == ""
    {
      this.email := email;
      messages := [];
      input := "";
      loading := false;
    }

    /** Typing into the text box, which is disabled while loading. */
    method ChangeInput(text: string)
      requires Valid()
      modifies this
      ensures Valid()
      ensures input == text && messages == old(messages)
    {
      input := text;
    }

    /** The part of `handleChatSubmit` before the call: nothing happens for
      a blank input or when no email is loaded; otherwise the box is
      cleared, the trimmed question appended and loading set. */
    method Begin() returns (question: Option<string>)
      requires Valid()
      modifies this
      ensures question.None? <==> Trim(old(input)) == "" || email.None?
      ensures question.None? ==> Valid() && messages == old(messages) && input == old(input)
      ensures question.Some? ==>
        && question.value == Trim(old(input)) && question.value != ""
        && input == ""
        && messages == old(messages) + [ChatMessage(User, question.value)]
        && Awaiting()
    {
      var trimmed := Trim(input);
      if trimmed == "" || email.None? {
        return None;
      }
      question := Some(trimmed);
      input := "";
      messages := messages + [ChatMessage(User, trimmed)];
      loading := true;
      assert messages[..|messages| - 1] == old(messages);
    }

    /** The part after the call: exactly one assistant message, the reply or
      the apology, then loading ends. */
    method Complete(assistant: ChatRequest -> ChatOutcome)
      requires Awaiting() && email.Some?
      modifies this
      ensures Valid()
      ensures input == old(input)
      ensures messages == old(messages) + [ChatMessage(Assistant,
                ReplyContent(assistant(ChatRequest(old(messages)[|old(messages)| - 1].content, ContextOf(email.value)))))]
    {
      var question := messages[|messages| - 1].content;
      var outcome := assistant(ChatRequest(question, ContextOf(email.value)));
      messages := messages + [ChatMessage(Assistant, ReplyContent(outcome))];
      loading := false;
      assert messages[..|messages| - 2] == old(messages)[..|old(messages)| - 1];
    }

    /** `handleChatSubmit`: a blank input or a missing email changes nothing;
      otherwise the box is cleared and the transcript grows by the trimmed
      question and one reply, earlier messages unchanged, loading false. */
    method Submit(assistant: ChatRequest -> ChatOutcome)
      requires Valid()
      modifies this
      ensures Valid()
      ensures Trim(old(input)) == "" || email.None? ==> messages == old(messages) && input == old(input)
      ensures Trim(old(input)) != "" && email.Some? ==>
        var q := Trim(old(input));
        && input == ""
        && messages == old(messages) + [ChatMessage(User, q),
                                        ChatMessage(Assistant, ReplyContent(assistant(ChatRequest(q, ContextOf(email.value)))))]
    {
      var question := Begin();
      if question.Some? {
        Complete(assistant);
      }
    }
  }
}
