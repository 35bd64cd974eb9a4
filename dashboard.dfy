/** The inbox page: the list filtered by risk level and a case-insensitive
    search, the per-level statistics, and the risk badge. */
module Dashboard {
  import opened Text
  import opened Sequences

  /** One stored scan as the inbox reads it. `riskLevel` is whatever the
      store holds: the analysis is not checked, so any string can occur. */
  datatype EmailScan = EmailScan(
    id: string,
    emailId: string,
    subject: string,
    sender: string,
    senderEmail: string,
    preview: string,
    receivedDate: string,
    riskScore: real,
    riskLevel: string,
    threatIndicators: seq<string>,
    analysisSummary: string,
    isRead: bool)

  const AllLevels: string := "all"

  predicate MatchesFilter(e: EmailScan, filter: string) {
    filter == AllLevels || e.riskLevel == filter
  }

  predicate MatchesSearch(e: EmailScan, query: string) {
    || query == ""
    || Contains(Lower(e.subject), Lower(query))
    || Contains(Lower(e.sender), Lower(query))
  }

  predicate Shown(e: EmailScan, filter: string, query: string) {
    MatchesFilter(e, filter) && MatchesSearch(e, query)
  }

  /** `filteredEmails`. */
  function FilteredEmails(emails: seq<EmailScan>, filter: string, query: string): seq<EmailScan> {
    Filter(emails, e => Shown(e, filter, query))
  }

  /** An email is listed iff it is in the inbox, its level passes the filter
      and the search matches its subject or sender, ignoring case; the list
      keeps the inbox order. */
  lemma FilteredMembership(emails: seq<EmailScan>, filter: string, query: string)
    ensures var r := FilteredEmails(emails, filter, query);
      && (forall e :: e in r <==>
            && e in emails
            && (filter == "all" || e.riskLevel == filter)
            && (query == "" || (exists i :: OccursAt(Lower(e.subject), Lower(query), i))
                            || (exists i :: OccursAt(Lower(e.sender), Lower(query), i))))
      && IsSubsequence(r, emails)
  {
    var r := FilteredEmails(emails, filter, query);
    forall e ensures e in r <==> e in emails && Shown(e, filter, query) {
      if e in r {
        var k :| 0 <= k < |r| && r[k] == e;
      }
      if e in emails && Shown(e, filter, query) {
        var k :| 0 <= k < |emails| && emails[k] == e;
      }
    }
    forall e: EmailScan
      ensures Contains(Lower(e.subject), Lower(query)) <==> exists i :: OccursAt(Lower(e.subject), Lower(query), i)
      ensures Contains(Lower(e.sender), Lower(query)) <==> exists i :: OccursAt(Lower(e.sender), Lower(query), i)
    {
      ContainsIff(Lower(e.subject), Lower(query));
      ContainsIff(Lower(e.sender), Lower(query));
    }
    FilterIsSubsequence(emails, e => Shown(e, filter, query));
  }

  /** With the "all" filter and an empty query the whole inbox is listed. */
  lemma UnfilteredIsInbox(emails: seq<EmailScan>)
    ensures FilteredEmails(emails, "all", "") == emails
  {
    FilterKeepsAll(emails, e => Shown(e, "all", ""));
  }

  /** Typing the query in any case gives the same list. */
  lemma SearchIgnoresCase(emails: seq<EmailScan>, filter: string, query: string)
    ensures FilteredEmails(emails, filter, Lower(query)) == FilteredEmails(emails, filter, query)
  {
    LowerIdempotent(query);
    assert Lower(query) == "" <==> query == "";
    FilterCongruent(emails, e => Shown(e, filter, Lower(query)), e => Shown(e, filter, query));
  }

  /** The number of emails at a given level. */
  function LevelCount(emails: seq<EmailScan>, level: string): (n: nat)
    ensures n <= |emails|
  {
    |Filter(emails, (e: EmailScan) => e.riskLevel == level)|
  }

  datatype Stats = Stats(total: nat, safe: nat, suspicious: nat, dangerous: nat)

  /** `stats`: computed from the inbox alone, so neither the filter nor the
      query can change it. */
  function ComputeStats(emails: seq<EmailScan>): (s: Stats)
    ensures s.total == |emails|
    ensures s.safe + s.suspicious + s.dangerous <= s.total
  {
    DisjointFiltersBound(emails, (e: EmailScan) => e.riskLevel == "safe", (e: EmailScan) => e.riskLevel == "suspicious",
                         (e: EmailScan) => e.riskLevel == "dangerous");
    Stats(|emails|, LevelCount(emails, "safe"), LevelCount(emails, "suspicious"), LevelCount(emails, "dangerous"))
  }

  /** With an empty query, the list under a level filter is as long as that
      level's count, and under "all" as long as the total. */
  lemma FilteredCountMatchesStats(emails: seq<EmailScan>, level: string)
    ensures level != "all" ==> |FilteredEmails(emails, level, "")| == LevelCount(emails, level)
    ensures |FilteredEmails(emails, "all", "")| == ComputeStats(emails).total
    ensures |FilteredEmails(emails, "safe", "")| == ComputeStats(emails).safe
    ensures |FilteredEmails(emails, "suspicious", "")| == ComputeStats(emails).suspicious
    ensures |FilteredEmails(emails, "dangerous", "")| == ComputeStats(emails).dangerous
  {
    forall l | l != "all"
      ensures |FilteredEmails(emails, l, "")| == LevelCount(emails, l)
    {
      FilterCongruent(emails, e => Shown(e, l, ""), (e: EmailScan) => e.riskLevel == l);
    }
    UnfilteredIsInbox(emails);
  }

  datatype Icon = CheckCircle | AlertTriangle

  datatype Badge = Badge(color: string, icon: Icon, shownScore: real)

  datatype Variant = Variant(color: string, icon: Icon)

  const Variants: map<string, Variant> := map[
    "safe" := Variant("bg-green-500/10 text-green-600 border-green-500/20", CheckCircle),
    "suspicious" := Variant("bg-yellow-500/10 text-yellow-600 border-yellow-500/20", AlertTriangle),
    "dangerous" := Variant("bg-red-500/10 text-red-600 border-red-500/20", AlertTriangle)]

  /** `getRiskBadge`: the level's variant, or the safe one for any other
      level; the badge shows the score. */
  function RiskBadge(level: string, score: real): (b: Badge)
    ensures b.shownScore == score
    ensures level == "safe" ==> b.color == "bg-green-500/10 text-green-600 border-green-500/20"
    ensures level == "suspicious" ==> b.color == "bg-yellow-500/10 text-yellow-600 border-yellow-500/20"
    ensures level == "dangerous" ==> b.color == "bg-red-500/10 text-red-600 border-red-500/20"
    ensures level !in {"safe", "suspicious", "dangerous"} ==>
              b.color == Variants["safe"].color && b.icon == CheckCircle
    ensures b.icon == CheckCircle <==> level !in {"suspicious", "dangerous"}
  {
    var v := if level in Variants then Variants[level] else Variants["safe"];
    Badge(v.color, v.icon, score)
  }
}
