/** The request schema of the `analyze-email` edge function and its validator:
    every field is checked, every failing check is reported as one
    `{field, message}` entry, and the first failing field does not hide the
    others. */
module EmailSchema {
  import opened Wrappers
  import opened Json

  /** A request body that passed the schema. */
  datatype AnalysisRequest = AnalysisRequest(
    userId: string,
    emailId: string,
    subject: string,
    sender: string,
    senderEmail: string,
    content: string,
    receivedDate: string,
    hasAttachments: bool)

  /** The validation library's `email()` and `datetime()` string formats,
      left uninterpreted. */
  datatype Formats = Formats(isEmail: string -> bool, isDatetime: string -> bool)

  /** One refinement of a string field, in the order the schema declares it. */
  datatype Check = MinLength(min: nat) | MaxLength(max: nat) | EmailFormat | DatetimeFormat

  datatype FieldType = StringOf(checks: seq<Check>) | Boolean

  datatype FieldRule = FieldRule(name: string, kind: FieldType)

  /** Why a field was rejected: missing, of the wrong JSON type, or failing
      one string check. Message wording is not modelled. */
  datatype IssueKind =
    | Required
    | WrongType
    | TooSmall(minimum: nat)
    | TooBig(maximum: nat)
    | InvalidEmail
    | InvalidDatetime

  /** One `{field, message}` entry; `field` is the issue path joined by ".",
      so an issue about the body as a whole has the empty field name. */
  datatype Issue = Issue(field: string, kind: IssueKind)

  /** The eight fields of the request, in declaration order. */
  const Schema: seq<FieldRule> := [
    FieldRule("userId", StringOf([MinLength(1)])),
    FieldRule("emailId", StringOf([MinLength(1), MaxLength(255)])),
    FieldRule("subject", StringOf([MinLength(1), MaxLength(500)])),
    FieldRule("sender", StringOf([MinLength(1), MaxLength(255)])),
    FieldRule("senderEmail", StringOf([EmailFormat, MaxLength(255)])),
    FieldRule("content", StringOf([MinLength(1), MaxLength(50000)])),
    FieldRule("receivedDate", StringOf([DatetimeFormat])),
    FieldRule("hasAttachments", Boolean)
  ]

  predicate CheckPasses(fmt: Formats, c: Check, s: string) {
    match c
    case MinLength(n) => |s| >= n
    case MaxLength(n) => |s| <= n
    case EmailFormat => fmt.isEmail(s)
    case DatetimeFormat => fmt.isDatetime(s)
  }

  function CheckIssue(c: Check): IssueKind {
    match c
    case MinLength(n) => TooSmall(n)
    case MaxLength(n) => TooBig(n)
    case EmailFormat => InvalidEmail
    case DatetimeFormat => InvalidDatetime
  }

  /** A field of the body satisfies its rule: it is present, has the right
      JSON type, and a string passes every check. */
  predicate FieldHolds(fmt: Formats, fields: map<string, Value>, rule: FieldRule) {
    && rule.name in fields
    && match rule.kind
       case StringOf(checks) =>
         fields[rule.name].JString?
         && forall i :: 0 <= i < |checks| ==> CheckPasses(fmt, checks[i], fields[rule.name].s)
       case Boolean => fields[rule.name].JBool?
  }

  /** String checks all run, none stops the others; each failing one
      yields one issue. */
  function CheckIssues(fmt: Formats, name: string, s: string, checks: seq<Check>): (issues: seq<Issue>)
    ensures issues == [] <==> forall i :: 0 <= i < |checks| ==> CheckPasses(fmt, checks[i], s)
    ensures forall k :: 0 <= k < |issues| ==> issues[k].field == name
    ensures |issues| <= |checks|
  {
    if checks == [] then []
    else
      (if CheckPasses(fmt, checks[0], s) then [] else [Issue(name, CheckIssue(checks[0]))])
      + CheckIssues(fmt, name, s, checks[1..])
  }

  /** Every failing check yields its own issue of the matching kind, even
      when an earlier check of the same field failed too. */
  lemma {:induction false} EveryFailingCheckReported(fmt: Formats, name: string, s: string, checks: seq<Check>, i: nat)
    requires i < |checks| && !CheckPasses(fmt, checks[i], s)
    ensures Issue(name, CheckIssue(checks[i])) in CheckIssues(fmt, name, s, checks)
    decreases |checks|
  {
    var head := if CheckPasses(fmt, checks[0], s) then [] else [Issue(name, CheckIssue(checks[0]))];
    var tail := CheckIssues(fmt, name, s, checks[1..]);
    assert CheckIssues(fmt, name, s, checks) == head + tail;
    if i > 0 {
      assert checks[1..][i - 1] == checks[i];
      EveryFailingCheckReported(fmt, name, s, checks[1..], i - 1);
    }
  }

  /** Every issue of a string field is the issue of one of its failing
      checks; `i` is that check. */
  lemma {:induction false} IssueFromFailingCheck(fmt: Formats, name: string, s: string, checks: seq<Check>, k: nat)
    returns (i: nat)
    requires k < |CheckIssues(fmt, name, s, checks)|
    ensures i < |checks| && !CheckPasses(fmt, checks[i], s)
    ensures CheckIssues(fmt, name, s, checks)[k] == Issue(name, CheckIssue(checks[i]))
    decreases |checks|
  {
    var head := if CheckPasses(fmt, checks[0], s) then [] else [Issue(name, CheckIssue(checks[0]))];
    var tail := CheckIssues(fmt, name, s, checks[1..]);
    assert CheckIssues(fmt, name, s, checks) == head + tail;
    if k < |head| {
      i := 0;
    } else {
      assert CheckIssues(fmt, name, s, checks)[k] == tail[k - |head|];
      var j := IssueFromFailingCheck(fmt, name, s, checks[1..], k - |head|);
      i := j + 1;
      assert checks[1..][j] == checks[i];
    }
  }

  /** The issues of one field: a missing key is `Required`, a value of the
      wrong type is one `WrongType` issue and runs no checks. */
  function FieldIssues(fmt: Formats, fields: map<string, Value>, rule: FieldRule): (issues: seq<Issue>)
    ensures issues == [] <==> FieldHolds(fmt, fields, rule)
    ensures forall k :: 0 <= k < |issues| ==> issues[k].field == rule.name
  {
    if rule.name !in fields then [Issue(rule.name, Required)]
    else
      match rule.kind
      case StringOf(checks) =>
        if fields[rule.name].JString? then CheckIssues(fmt, rule.name, fields[rule.name].s, checks)
        else [Issue(rule.name, WrongType)]
      case Boolean =>
        if fields[rule.name].JBool? then [] else [Issue(rule.name, WrongType)]
  }

  /** The issues of all fields, field by field in schema order. */
  function SchemaIssues(fmt: Formats, fields: map<string, Value>, rules: seq<FieldRule>): (issues: seq<Issue>)
    ensures issues == [] <==> forall i :: 0 <= i < |rules| ==> FieldHolds(fmt, fields, rules[i])
  {
    if rules == [] then []
    else
      assert forall i :: 1 <= i < |rules| ==> rules[1..][i - 1] == rules[i];
      FieldIssues(fmt, fields, rules[0]) + SchemaIssues(fmt, fields, rules[1..])
  }

  /** Every issue names a rule that fails. */
  lemma {:induction false} IssuesNameFailingRules(fmt: Formats, fields: map<string, Value>, rules: seq<FieldRule>, k: nat)
    requires k < |SchemaIssues(fmt, fields, rules)|
    ensures exists i :: 0 <= i < |rules| && SchemaIssues(fmt, fields, rules)[k].field == rules[i].name
                        && !FieldHolds(fmt, fields, rules[i])
    decreases |rules|
  {
    var head := FieldIssues(fmt, fields, rules[0]);
    if k < |head| {
      assert SchemaIssues(fmt, fields, rules)[k] == head[k];
    } else {
      var tail := SchemaIssues(fmt, fields, rules[1..]);
      assert SchemaIssues(fmt, fields, rules)[k] == tail[k - |head|];
      IssuesNameFailingRules(fmt, fields, rules[1..], k - |head|);
      var i :| 0 <= i < |rules[1..]| && tail[k - |head|].field == rules[1..][i].name
               && !FieldHolds(fmt, fields, rules[1..][i]);
      assert rules[1..][i] == rules[i + 1];
    }
  }

  /** Every failing rule is named by some issue. */
  lemma {:induction false} FailingRulesReported(fmt: Formats, fields: map<string, Value>, rules: seq<FieldRule>, i: nat)
    requires i < |rules| && !FieldHolds(fmt, fields, rules[i])
    ensures exists k :: 0 <= k < |SchemaIssues(fmt, fields, rules)|
                        && SchemaIssues(fmt, fields, rules)[k].field == rules[i].name
    decreases |rules|
  {
    var head := FieldIssues(fmt, fields, rules[0]);
    var tail := SchemaIssues(fmt, fields, rules[1..]);
    assert SchemaIssues(fmt, fields, rules) == head + tail;
    if i == 0 {
      assert head != [] && head[0].field == rules[0].name;
      assert (head + tail)[0] == head[0];
    } else {
      assert rules[1..][i - 1] == rules[i];
      FailingRulesReported(fmt, fields, rules[1..], i - 1);
      var k :| 0 <= k < |tail| && tail[k].field == rules[i].name;
      assert (head + tail)[|head| + k] == tail[k];
    }
  }

  /** `EmailAnalysisSchema.safeParse(body)`: the typed request, or every
      issue found. A body that is not an object is one issue about the
      whole body. */
  function Validate(fmt: Formats, body: Value): (r: Result<AnalysisRequest, seq<Issue>>)
    ensures r.Failure? ==> r.error != []
  {
    if !body.JObject? then Failure([Issue("", WrongType)])
    else
      var f := body.fields;
      var issues := SchemaIssues(fmt, f, Schema);
      if issues != [] then Failure(issues)
      else
        assert FieldHolds(fmt, f, Schema[0]) && FieldHolds(fmt, f, Schema[1]);
        assert FieldHolds(fmt, f, Schema[2]) && FieldHolds(fmt, f, Schema[3]);
        assert FieldHolds(fmt, f, Schema[4]) && FieldHolds(fmt, f, Schema[5]);
        assert FieldHolds(fmt, f, Schema[6]) && FieldHolds(fmt, f, Schema[7]);
        Success(AnalysisRequest(
          f["userId"].s, f["emailId"].s, f["subject"].s, f["sender"].s,
          f["senderEmail"].s, f["content"].s, f["receivedDate"].s, f["hasAttachments"].b))
  }

  /** The field `name` is a string whose length lies in [lo, hi]. */
  ghost predicate StringWithin(f: map<string, Value>, name: string, lo: nat, hi: nat) {
    name in f && f[name].JString? && lo <= |f[name].s| <= hi
  }

  /** The acceptance condition, stated field by field. */
  ghost predicate Accepted(fmt: Formats, body: Value) {
    && body.JObject?
    && var f := body.fields;
    && "userId" in f && f["userId"].JString? && |f["userId"].s| >= 1
    && StringWithin(f, "emailId", 1, 255)
    && StringWithin(f, "subject", 1, 500)
    && StringWithin(f, "sender", 1, 255)
    && StringWithin(f, "senderEmail", 0, 255) && fmt.isEmail(f["senderEmail"].s)
    && StringWithin(f, "content", 1, 50000)
    && "receivedDate" in f && f["receivedDate"].JString? && fmt.isDatetime(f["receivedDate"].s)
    && "hasAttachments" in f && f["hasAttachments"].JBool?
  }

  /** The schema's rules, one by one, are the acceptance condition. */
  lemma SchemaMeansAccepted(fmt: Formats, f: map<string, Value>)
    ensures (forall i :: 0 <= i < |Schema| ==> FieldHolds(fmt, f, Schema[i])) <==> Accepted(fmt, JObject(f))
  {
    var s0, s1, s2, s3 := Schema[0], Schema[1], Schema[2], Schema[3];
    var s4, s5, s6, s7 := Schema[4], Schema[5], Schema[6], Schema[7];
    assert s0.kind.checks == [MinLength(1)];
    assert s1.kind.checks == [MinLength(1), MaxLength(255)];
    assert s2.kind.checks == [MinLength(1), MaxLength(500)];
    assert s3.kind.checks == [MinLength(1), MaxLength(255)];
    assert s4.kind.checks == [EmailFormat, MaxLength(255)];
    assert s5.kind.checks == [MinLength(1), MaxLength(50000)];
    assert s6.kind.checks == [DatetimeFormat];
    if Accepted(fmt, JObject(f)) {
      forall i | 0 <= i < |Schema| ensures FieldHolds(fmt, f, Schema[i]) {
        assert i in {0, 1, 2, 3, 4, 5, 6, 7};
      }
    }
    if forall i :: 0 <= i < |Schema| ==> FieldHolds(fmt, f, Schema[i]) {
      assert FieldHolds(fmt, f, s0) && FieldHolds(fmt, f, s1) && FieldHolds(fmt, f, s2);
      assert FieldHolds(fmt, f, s3) && FieldHolds(fmt, f, s4) && FieldHolds(fmt, f, s5);
      assert FieldHolds(fmt, f, s6) && FieldHolds(fmt, f, s7);
      assert CheckPasses(fmt, s0.kind.checks[0], f["userId"].s);
      assert CheckPasses(fmt, s1.kind.checks[0], f["emailId"].s) && CheckPasses(fmt, s1.kind.checks[1], f["emailId"].s);
      assert CheckPasses(fmt, s2.kind.checks[0], f["subject"].s) && CheckPasses(fmt, s2.kind.checks[1], f["subject"].s);
      assert CheckPasses(fmt, s3.kind.checks[0], f["sender"].s) && CheckPasses(fmt, s3.kind.checks[1], f["sender"].s);
      assert CheckPasses(fmt, s4.kind.checks[0], f["senderEmail"].s) && CheckPasses(fmt, s4.kind.checks[1], f["senderEmail"].s);
      assert CheckPasses(fmt, s5.kind.checks[0], f["content"].s) && CheckPasses(fmt, s5.kind.checks[1], f["content"].s);
      assert CheckPasses(fmt, s6.kind.checks[0], f["receivedDate"].s);
    }
  }

  /** A body is accepted iff it meets every bound; an accepted request
      carries the body's own field values. */
  lemma ValidateIffAccepted(fmt: Formats, body: Value)
    ensures Validate(fmt, body).Success? <==> Accepted(fmt, body)
    ensures Validate(fmt, body).Success? ==>
      var r, f := Validate(fmt, body).value, body.fields;
      && r.userId == f["userId"].s && r.emailId == f["emailId"].s
      && r.subject == f["subject"].s && r.sender == f["sender"].s
      && r.senderEmail == f["senderEmail"].s && r.content == f["content"].s
      && r.receivedDate == f["receivedDate"].s && r.hasAttachments == f["hasAttachments"].b
  {
    if body.JObject? {
      SchemaMeansAccepted(fmt, body.fields);
    }
  }

  /** Every accepted request meets the bounds of the schema. */
  lemma AcceptedRequestBounds(fmt: Formats, body: Value)
    requires Validate(fmt, body).Success?
    ensures var r := Validate(fmt, body).value;
      && 1 <= |r.userId|
      && 1 <= |r.emailId| <= 255
      && 1 <= |r.subject| <= 500
      && 1 <= |r.sender| <= 255
      && |r.senderEmail| <= 255 && fmt.isEmail(r.senderEmail)
      && 1 <= |r.content| <= 50000
      && fmt.isDatetime(r.receivedDate)
  {
    ValidateIffAccepted(fmt, body);
  }

  /** No two rules of the schema share a field name. */
  lemma SchemaNamesDistinct()
    ensures forall i, j :: 0 <= i < j < |Schema| ==> Schema[i].name != Schema[j].name
  {
  }

  /** An object body that fails is reported field by field: a field of the
      schema is named by some issue iff it violates its rule, and every issue
      names a field of the schema. */
  lemma IssuesNameExactlyFailingFields(fmt: Formats, body: Value)
    requires body.JObject? && Validate(fmt, body).Failure?
    ensures var issues := Validate(fmt, body).error;
      && (forall i :: 0 <= i < |Schema| ==>
            ((exists k :: 0 <= k < |issues| && issues[k].field == Schema[i].name)
             <==> !FieldHolds(fmt, body.fields, Schema[i])))
      && (forall k :: 0 <= k < |issues| ==> exists i :: 0 <= i < |Schema| && issues[k].field == Schema[i].name)
  {
    SchemaNamesDistinct();
    var issues := Validate(fmt, body).error;
    assert issues == SchemaIssues(fmt, body.fields, Schema);
    forall i | 0 <= i < |Schema|
      ensures (exists k :: 0 <= k < |issues| && issues[k].field == Schema[i].name)
              <==> !FieldHolds(fmt, body.fields, Schema[i])
    {
      if !FieldHolds(fmt, body.fields, Schema[i]) {
        FailingRulesReported(fmt, body.fields, Schema, i);
      }
      forall k | 0 <= k < |issues| && issues[k].field == Schema[i].name
        ensures !FieldHolds(fmt, body.fields, Schema[i])
      {
        IssuesNameFailingRules(fmt, body.fields, Schema, k);
      }
    }
    forall k | 0 <= k < |issues| ensures exists i :: 0 <= i < |Schema| && issues[k].field == Schema[i].name {
      IssuesNameFailingRules(fmt, body.fields, Schema, k);
    }
  }

  /** When every rule but the m-th holds, the issues are those of the m-th rule. */
  lemma {:induction false} OnlyFailingRule(fmt: Formats, f: map<string, Value>, rules: seq<FieldRule>, m: nat)
    requires m < |rules|
    requires forall i :: 0 <= i < |rules| && i != m ==> FieldHolds(fmt, f, rules[i])
    ensures SchemaIssues(fmt, f, rules) == FieldIssues(fmt, f, rules[m])
    decreases |rules|
  {
    if m == 0 {
      assert forall i :: 0 <= i < |rules[1..]| ==> FieldHolds(fmt, f, rules[1..][i]) by {
        forall i | 0 <= i < |rules[1..]| ensures FieldHolds(fmt, f, rules[1..][i]) {
          assert rules[1..][i] == rules[i + 1];
        }
      }
    } else {
      assert FieldHolds(fmt, f, rules[0]);
      forall i | 0 <= i < |rules[1..]| && i != m - 1 ensures FieldHolds(fmt, f, rules[1..][i]) {
        assert rules[1..][i] == rules[i + 1];
      }
      OnlyFailingRule(fmt, f, rules[1..], m - 1);
    }
  }

  /** A body that is valid except that one field is missing is rejected
      with exactly one issue: that field is `Required`. */
  lemma MissingFieldReportedAlone(fmt: Formats, f: map<string, Value>, m: nat)
    requires Accepted(fmt, JObject(f))
    requires m < |Schema|
    ensures Validate(fmt, JObject(f - {Schema[m].name})) == Failure([Issue(Schema[m].name, Required)])
  {
    var name := Schema[m].name;
    var g := f - {name};
    SchemaMeansAccepted(fmt, f);
    SchemaNamesDistinct();
    forall i | 0 <= i < |Schema| && i != m ensures FieldHolds(fmt, g, Schema[i]) {
      assert FieldHolds(fmt, f, Schema[i]);
      assert Schema[i].name in g && g[Schema[i].name] == f[Schema[i].name];
    }
    OnlyFailingRule(fmt, g, Schema, m);
  }
}
