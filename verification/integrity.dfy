/** src/cogs/DatabaseIntegrity.py: the weekly integrity sweep. Each check
    either returns a list of issues or raises; the sweep counts both, keeps
    going after a failed check, groups the issues by type in order of first
    appearance and decides between an alert, a success notice and silence.
    Notifications are returned as values, in the order they are sent. */
module Integrity {
  import opened Wrappers
  import opened Text

  /** A row of the subusers table. */
  datatype SubuserRow = SubuserRow(userId: int, subuserId: int)

  /** An issue dictionary: 'type', 'detail', 'user_id', 'subuser_id'. */
  datatype Issue = Issue(kind: string, detail: string, userId: int, subuserId: int)

  const OrphanKind: string := "Orphaned Subusers"
  const SaturdayIndex: int := 5

  // ---------------------------------------------------------------------------
  // `_check_orphaned_subusers`

  function OrphanIssue(r: SubuserRow): Issue {
    Issue(OrphanKind,
          "user_id=" + IntToString(r.userId) + ", subuser_id=" + IntToString(r.subuserId)
          + " (parent user does not exist)",
          r.userId, r.subuserId)
  }

  /** The rows of the LEFT JOIN whose user is missing, one issue each, in row order. */
  function OrphanIssues(rows: seq<SubuserRow>, users: set<int>): seq<Issue>
    decreases |rows|
  {
    if rows == [] then []
    else
      var last := rows[|rows| - 1];
      OrphanIssues(rows[..|rows| - 1], users) + (if last.userId in users then [] else [OrphanIssue(last)])
  }

  /** Exactly the subuser rows without a parent user are reported, each as
      an 'Orphaned Subusers' issue carrying both ids. */
  lemma {:induction false} OrphanIssuesExact(rows: seq<SubuserRow>, users: set<int>)
    ensures forall i :: 0 <= i < |OrphanIssues(rows, users)| ==>
              exists r :: r in rows && r.userId !in users && OrphanIssues(rows, users)[i] == OrphanIssue(r)
    ensures forall r :: r in rows && r.userId !in users ==> OrphanIssue(r) in OrphanIssues(rows, users)
    decreases |rows|
  {
    if rows != [] {
      var front := rows[..|rows| - 1];
      OrphanIssuesExact(front, users);
      assert rows == front + [rows[|rows| - 1]];
      var prev, all := OrphanIssues(front, users), OrphanIssues(rows, users);
      forall i | 0 <= i < |all|
        ensures exists r :: r in rows && r.userId !in users && all[i] == OrphanIssue(r)
      {
        if i < |prev| {
          assert all[i] == prev[i];
          var r :| r in front && r.userId !in users && prev[i] == OrphanIssue(r);
          assert r in rows && r.userId !in users && all[i] == OrphanIssue(r);
        } else {
          var r := rows[|rows| - 1];
          assert r in rows && r.userId !in users && all[i] == OrphanIssue(r);
        }
      }
      forall r | r in rows && r.userId !in users
        ensures OrphanIssue(r) in OrphanIssues(rows, users)
      {
        if r != rows[|rows| - 1] {
          assert r in front;
        }
      }
    } else {
      assert OrphanIssues(rows, users) == [];
    }
  }

  /** `_check_orphaned_subusers(guild)`: the query's rows are walked once. */
  method CheckOrphanedSubusers(rows: seq<SubuserRow>, users: set<int>) returns (issues: seq<Issue>)
    ensures issues == OrphanIssues(rows, users)
    ensures forall i :: 0 <= i < |issues| ==> issues[i].kind == OrphanKind && issues[i].userId !in users
  {
    issues := [];
    for i := 0 to |rows|
      invariant issues == OrphanIssues(rows[..i], users)
      invariant forall j :: 0 <= j < |issues| ==> issues[j].kind == OrphanKind && issues[j].userId !in users
    {
      assert rows[..i + 1][..i] == rows[..i];
      if rows[i].userId !in users {
        issues := issues + [OrphanIssue(rows[i])];
      }
    }
    assert rows[..|rows|] == rows;
  }

  /** `check_func.__name__` of the one registered check. */
  const OrphanCheckName: string := "_check_orphaned_subusers"

  /** `DatabaseManager._connect` is a static method without parameters, so
      the call `_connect(guild.id)` raises this before any query runs. */
  const ConnectTypeError: string := "DatabaseManager._connect() takes 0 positional arguments but 1 was given"

  /** The registered checks as written: the orphan check always raises. */
  const AsWrittenChecks: seq<Check> := [Check(OrphanCheckName, Raised(ConnectTypeError))]

  /** The registered checks as intended: the query runs and its rows are walked. */
  function IntendedChecks(rows: seq<SubuserRow>, users: set<int>): seq<Check> {
    [Check(OrphanCheckName, Returned(OrphanIssues(rows, users)))]
  }

  // ---------------------------------------------------------------------------
  // Grouping by type (`issues_by_type`, a dict that keeps insertion order)

  /** The issue types in order of first appearance. */
  function KindsInOrder(issues: seq<Issue>): seq<string>
    decreases |issues|
  {
    if issues == [] then []
    else
      var ks := KindsInOrder(issues[..|issues| - 1]);
      var k := issues[|issues| - 1].kind;
      if k in ks then ks else ks + [k]
  }

  /** The issues of one type, in their original order. */
  function OfKind(issues: seq<Issue>, k: string): seq<Issue>
    decreases |issues|
  {
    if issues == [] then []
    else OfKind(issues[..|issues| - 1], k) + (if issues[|issues| - 1].kind == k then [issues[|issues| - 1]] else [])
  }

  predicate Distinct(ks: seq<string>) {
    forall i, j :: 0 <= i < j < |ks| ==> ks[i] != ks[j]
  }

  lemma {:induction false} KindsInOrderFacts(issues: seq<Issue>)
    ensures Distinct(KindsInOrder(issues))
    ensures forall k :: k in KindsInOrder(issues) <==> exists i :: 0 <= i < |issues| && issues[i].kind == k
    decreases |issues|
  {
    if issues != [] {
      var front := issues[..|issues| - 1];
      KindsInOrderFacts(front);
      forall k
        ensures k in KindsInOrder(issues) <==> exists i :: 0 <= i < |issues| && issues[i].kind == k
      {
        if exists i :: 0 <= i < |issues| && issues[i].kind == k {
          var i :| 0 <= i < |issues| && issues[i].kind == k;
          if i < |front| {
            assert front[i].kind == k;
          }
        }
        if k in KindsInOrder(front) {
          var i :| 0 <= i < |front| && front[i].kind == k;
          assert issues[i].kind == k;
        }
      }
    }
  }

  lemma {:induction false} OfKindAbsent(issues: seq<Issue>, k: string)
    requires forall i :: 0 <= i < |issues| ==> issues[i].kind != k
    ensures OfKind(issues, k) == []
    decreases |issues|
  {
    if issues != [] {
      OfKindAbsent(issues[..|issues| - 1], k);
    }
  }

  /** The sum of the group sizes for the types `ks`. */
  function SumSizes(issues: seq<Issue>, ks: seq<string>): nat
    decreases |ks|
  {
    if ks == [] then 0 else SumSizes(issues, ks[..|ks| - 1]) + |OfKind(issues, ks[|ks| - 1])|
  }

  lemma {:induction false} SumSizesSnoc(issues: seq<Issue>, x: Issue, ks: seq<string>)
    requires Distinct(ks)
    ensures SumSizes(issues + [x], ks) == SumSizes(issues, ks) + (if x.kind in ks then 1 else 0)
    decreases |ks|
  {
    if ks != [] {
      var front := ks[..|ks| - 1];
      assert (issues + [x])[..|issues|] == issues;
      SumSizesSnoc(issues, x, front);
      assert x.kind in ks <==> x.kind in front || x.kind == ks[|ks| - 1];
      assert ks[|ks| - 1] !in front;
    }
  }

  /** The per-type counts of the report add up to the total number of issues. */
  lemma {:induction false} GroupSizesSum(issues: seq<Issue>)
    ensures SumSizes(issues, KindsInOrder(issues)) == |issues|
    decreases |issues|
  {
    if issues != [] {
      var front := issues[..|issues| - 1];
      var x := issues[|issues| - 1];
      assert issues == front + [x];
      GroupSizesSum(front);
      KindsInOrderFacts(front);
      var ks := KindsInOrder(front);
      SumSizesSnoc(front, x, ks);
      if x.kind !in ks {
        OfKindAbsent(front, x.kind);
        assert OfKind(issues, x.kind) == [x];
        assert KindsInOrder(issues) == ks + [x.kind];
        assert (ks + [x.kind])[..|ks|] == ks;
      }
    }
  }

  /** Building `issues_by_type` in place: the types in insertion order and
      the issues of each type. */
  method GroupByType(issues: seq<Issue>) returns (kinds: seq<string>, groups: map<string, seq<Issue>>)
    ensures kinds == KindsInOrder(issues)
    ensures forall k :: k in groups <==> k in kinds
    ensures forall k :: k in groups ==> groups[k] == OfKind(issues, k)
  {
    kinds, groups := [], map[];
    for i := 0 to |issues|
      invariant kinds == KindsInOrder(issues[..i])
      invariant forall k :: k in groups <==> k in kinds
      invariant forall k :: k in groups ==> groups[k] == OfKind(issues[..i], k)
    {
      var x := issues[i];
      assert issues[..i + 1][..i] == issues[..i];
      if x.kind !in groups {
        KindsInOrderFacts(issues[..i]);
        OfKindAbsent(issues[..i], x.kind);
        kinds := kinds + [x.kind];
        groups := groups[x.kind := []];
      }
      groups := groups[x.kind := groups[x.kind] + [x]];
    }
    assert issues[..|issues|] == issues;
  }

  // ---------------------------------------------------------------------------
  // The report

  function DetailLines(group: seq<Issue>): (r: seq<string>)
    ensures |r| == |group|
  {
    seq(|group|, i requires 0 <= i < |group| => "- " + group[i].detail)
  }

  /** The lines for one type: a header with the count, one line per issue
      and a blank line. */
  function SectionLines(k: string, group: seq<Issue>): (r: seq<string>)
    ensures |r| == |group| + 2
  {
    ["=== " + k + " (" + NatToString(|group|) + " issues) ==="] + DetailLines(group) + [""]
  }

  function SectionsFor(issues: seq<Issue>, ks: seq<string>): (r: seq<string>)
    ensures |r| == 2 * |ks| + SumSizes(issues, ks)
    decreases |ks|
  {
    if ks == [] then []
    else SectionsFor(issues, ks[..|ks| - 1]) + SectionLines(ks[|ks| - 1], OfKind(issues, ks[|ks| - 1]))
  }

  function ReportLines(guildName: string, guildId: int, issues: seq<Issue>): seq<string> {
    ["Guild: " + guildName + " (" + IntToString(guildId) + ")", ""] + SectionsFor(issues, KindsInOrder(issues))
  }

  /** The report has a two-line head, a header and a blank line per type and
      one line per issue. */
  lemma ReportLineCount(guildName: string, guildId: int, issues: seq<Issue>)
    ensures |ReportLines(guildName, guildId, issues)| == 2 + 2 * |KindsInOrder(issues)| + |issues|
  {
    GroupSizesSum(issues);
  }

  /** `"\n".join(parts)` */
  function JoinLines(parts: seq<string>): string
    decreases |parts|
  {
    if parts == [] then ""
    else if |parts| == 1 then parts[0]
    else JoinLines(parts[..|parts| - 1]) + "\n" + parts[|parts| - 1]
  }

  /** The alert's details: the guild line, then for each type its header,
      one line per issue and a blank line, joined with newlines. */
  method BuildReport(guildName: string, guildId: int, issues: seq<Issue>) returns (details: string)
    ensures details == JoinLines(ReportLines(guildName, guildId, issues))
  {
    var kinds, groups := GroupByType(issues);
    var head := ["Guild: " + guildName + " (" + IntToString(guildId) + ")", ""];
    var sections := AppendSections(issues, kinds, groups);
    details := JoinLines(head + sections);
  }

  /** The loop over `issues_by_type.items()`. */
  method AppendSections(issues: seq<Issue>, kinds: seq<string>, groups: map<string, seq<Issue>>)
    returns (parts: seq<string>)
    requires forall k :: k in kinds ==> k in groups && groups[k] == OfKind(issues, k)
    ensures parts == SectionsFor(issues, kinds)
  {
    parts := [];
    for j := 0 to |kinds|
      invariant parts == SectionsFor(issues, kinds[..j])
    {
      assert kinds[..j + 1][..j] == kinds[..j];
      var group := groups[kinds[j]];
      parts := parts + SectionLines(kinds[j], group);
    }
    assert kinds[..|kinds|] == kinds;
  }

  // ---------------------------------------------------------------------------
  // `_check_guild_integrity`

  datatype CheckOutcome = Returned(issues: seq<Issue>) | Raised(error: string)
  datatype Check = Check(name: string, outcome: CheckOutcome)

  datatype Notification =
    | SystemError(errorMessage: string, details: string)
    | SystemAlert(totalIssues: nat, details: string)
    | SuccessNotice(message: string)

  function AllIssues(checks: seq<Check>): seq<Issue>
    decreases |checks|
  {
    if checks == [] then []
    else
      var last := checks[|checks| - 1];
      AllIssues(checks[..|checks| - 1]) + (if last.outcome.Returned? then last.outcome.issues else [])
  }

  function RunCount(checks: seq<Check>): nat
    decreases |checks|
  {
    if checks == [] then 0
    else RunCount(checks[..|checks| - 1]) + (if checks[|checks| - 1].outcome.Returned? then 1 else 0)
  }

  function FailedCount(checks: seq<Check>): nat
    decreases |checks|
  {
    if checks == [] then 0
    else FailedCount(checks[..|checks| - 1]) + (if checks[|checks| - 1].outcome.Raised? then 1 else 0)
  }

  function CheckFailure(c: Check): Notification
    requires c.outcome.Raised?
  {
    SystemError("Integrity check '" + c.name + "' failed", "Failed to run " + c.name + ": " + c.outcome.error)
  }

  /** One error notification per failed check, in check order. */
  function FailureNotes(checks: seq<Check>): seq<Notification>
    decreases |checks|
  {
    if checks == [] then []
    else
      var last := checks[|checks| - 1];
      FailureNotes(checks[..|checks| - 1]) + (if last.outcome.Raised? then [CheckFailure(last)] else [])
  }

  /** The closing notification: an alert when any issue was found, a success
      notice when nothing was found and no check failed, and nothing else. */
  function SummaryNotes(guildName: string, guildId: int, issues: seq<Issue>, run: nat, failed: nat): seq<Notification> {
    if issues != [] then [SystemAlert(|issues|, JoinLines(ReportLines(guildName, guildId, issues)))]
    else if failed == 0 then
      [SuccessNotice("All " + NatToString(run) + " integrity checks completed successfully - no issues found")]
    else []
  }

  lemma {:induction false} CountsAddUp(checks: seq<Check>)
    ensures RunCount(checks) + FailedCount(checks) == |checks|
    decreases |checks|
  {
    if checks != [] {
      CountsAddUp(checks[..|checks| - 1]);
    }
  }

  method CheckGuildIntegrity(guildName: string, guildId: int, checks: seq<Check>)
    returns (notes: seq<Notification>, allIssues: seq<Issue>, checksRun: nat, failedChecks: nat)
    ensures allIssues == AllIssues(checks)
    ensures checksRun == RunCount(checks) && failedChecks == FailedCount(checks)
    ensures checksRun + failedChecks == |checks|
    ensures notes == FailureNotes(checks) + SummaryNotes(guildName, guildId, allIssues, checksRun, failedChecks)
  {
    notes, allIssues, checksRun, failedChecks := [], [], 0, 0;
    for i := 0 to |checks|
      invariant allIssues == AllIssues(checks[..i])
      invariant checksRun == RunCount(checks[..i]) && failedChecks == FailedCount(checks[..i])
      invariant checksRun + failedChecks == i
      invariant notes == FailureNotes(checks[..i])
    {
      assert checks[..i + 1][..i] == checks[..i];
      var c := checks[i];
      match c.outcome
      case Returned(issues) =>
        checksRun := checksRun + 1;
        allIssues := allIssues + issues;
      case Raised(e) =>
        failedChecks := failedChecks + 1;
        notes := notes + [CheckFailure(c)];
    }
    assert checks[..|checks|] == checks;
    if allIssues != [] {
      var details := BuildReport(guildName, guildId, allIssues);
      notes := notes + [SystemAlert(|allIssues|, details)];
    } else if failedChecks == 0 {
      notes := notes + [SuccessNotice("All " + NatToString(checksRun) + " integrity checks completed successfully - no issues found")];
    }
  }

  /** An alert goes out exactly when some check reported an issue, and it
      counts every reported issue. */
  lemma AlertIffIssues(guildName: string, guildId: int, checks: seq<Check>)
    ensures var s := SummaryNotes(guildName, guildId, AllIssues(checks), RunCount(checks), FailedCount(checks));
            (|s| == 1 && s[0].SystemAlert?) <==> AllIssues(checks) != []
    ensures var s := SummaryNotes(guildName, guildId, AllIssues(checks), RunCount(checks), FailedCount(checks));
            |s| == 1 && s[0].SystemAlert? ==> s[0].totalIssues == |AllIssues(checks)|
  {
  }

  /** A success notice goes out exactly when no issue was found and no check
      failed; with no issues and some failure nothing is sent. */
  lemma SuccessIffClean(guildName: string, guildId: int, checks: seq<Check>)
    ensures var s := SummaryNotes(guildName, guildId, AllIssues(checks), RunCount(checks), FailedCount(checks));
            (|s| == 1 && s[0].SuccessNotice?) <==> AllIssues(checks) == [] && FailedCount(checks) == 0
    ensures var s := SummaryNotes(guildName, guildId, AllIssues(checks), RunCount(checks), FailedCount(checks));
            s == [] <==> AllIssues(checks) == [] && FailedCount(checks) > 0
  {
  }

  /** A failed check does not hide the issues of the checks after it: the
      issues of the whole run are those of its two halves. */
  lemma {:induction false} AllIssuesSplit(a: seq<Check>, b: seq<Check>)
    ensures AllIssues(a + b) == AllIssues(a) + AllIssues(b)
    decreases |b|
  {
    if b == [] {
      assert a + b == a;
    } else {
      var ab := a + b;
      var front := b[..|b| - 1];
      AllIssuesSplit(a, front);
      assert ab[..|ab| - 1] == a + front;
      var last := b[|b| - 1];
      assert ab[|ab| - 1] == last;
      var extra := if last.outcome.Returned? then last.outcome.issues else [];
      assert AllIssues(ab) == AllIssues(a + front) + extra;
      assert AllIssues(b) == AllIssues(front) + extra;
    }
  }

  /** Likewise each failed check gets its own error notification, in check
      order, whatever the checks around it did. */
  lemma {:induction false} FailureNotesSplit(a: seq<Check>, b: seq<Check>)
    ensures FailureNotes(a + b) == FailureNotes(a) + FailureNotes(b)
    decreases |b|
  {
    if b == [] {
      assert a + b == a;
    } else {
      var ab := a + b;
      var front := b[..|b| - 1];
      FailureNotesSplit(a, front);
      assert ab[..|ab| - 1] == a + front;
      var last := b[|b| - 1];
      assert ab[|ab| - 1] == last;
      var extra := if last.outcome.Raised? then [CheckFailure(last)] else [];
      assert FailureNotes(ab) == FailureNotes(a + front) + extra;
      assert FailureNotes(b) == FailureNotes(front) + extra;
    }
  }

  // ---------------------------------------------------------------------------
  // `weekly_integrity_check`

  /** One guild of the sweep: its checks, and the text of an exception that
      escapes `_check_guild_integrity` for it, if any. */
  datatype GuildRun = GuildRun(id: int, name: string, checks: seq<Check>, escaped: Option<string>)

  function GuildNotes(g: GuildRun): seq<Notification> {
    if g.escaped.Some? then [SystemError("Weekly integrity check failed", g.escaped.value)]
    else FailureNotes(g.checks)
         + SummaryNotes(g.name, g.id, AllIssues(g.checks), RunCount(g.checks), FailedCount(g.checks))
  }

  /** The sweep runs only on Saturdays; each guild gets its own
      notifications, and a failure in one guild does not stop the others. */
  method WeeklyIntegrityCheck(weekday: int, guilds: seq<GuildRun>) returns (sent: seq<(int, seq<Notification>)>)
    ensures weekday != SaturdayIndex ==> sent == []
    ensures weekday == SaturdayIndex ==>
              |sent| == |guilds| && forall i :: 0 <= i < |guilds| ==> sent[i] == (guilds[i].id, GuildNotes(guilds[i]))
  {
    sent := [];
    if weekday != SaturdayIndex {
      return;
    }
    for i := 0 to |guilds|
      invariant |sent| == i
      invariant forall j :: 0 <= j < i ==> sent[j] == (guilds[j].id, GuildNotes(guilds[j]))
    {
      var notes := SweepGuild(guilds[i]);
      sent := sent + [(guilds[i].id, notes)];
    }
  }

  /** The body of the per-guild `try`: the guild's checks, or the single
      error notification when an exception escapes them. */
  method SweepGuild(g: GuildRun) returns (notes: seq<Notification>)
    ensures notes == GuildNotes(g)
  {
    if g.escaped.Some? {
      notes := [SystemError("Weekly integrity check failed", g.escaped.value)];
    } else {
      var n, _, _, _ := CheckGuildIntegrity(g.name, g.id, g.checks);
      notes := n;
    }
  }

  // ---------------------------------------------------------------------------
  // The sweep of one guild, as written and as intended

  /** As written, every guild's sweep sends exactly one error notification,
      for the orphan check, and never an alert or the success notice. */
  lemma AsWrittenCheckAlwaysFails(guildName: string, guildId: int)
    ensures GuildNotes(GuildRun(guildId, guildName, AsWrittenChecks, None))
            == [SystemError("Integrity check '" + OrphanCheckName + "' failed",
                            "Failed to run " + OrphanCheckName + ": " + ConnectTypeError)]
  {
    var checks := AsWrittenChecks;
    assert checks[..0] == [];
    assert AllIssues(checks) == [] && FailedCount(checks) == 1;
    assert FailureNotes(checks) == [CheckFailure(checks[0])];
  }

  /** No orphan issue is reported iff every subuser row has its parent user. */
  lemma OrphanFreeIff(rows: seq<SubuserRow>, users: set<int>)
    ensures OrphanIssues(rows, users) == [] <==> forall r :: r in rows ==> r.userId in users
  {
    var issues := OrphanIssues(rows, users);
    OrphanIssuesExact(rows, users);
    if issues != [] {
      assert exists r :: r in rows && r.userId !in users && OrphanIssues(rows, users)[0] == OrphanIssue(r);
    }
  }

  /** The intended check never fails, so the sweep sends only its summary. */
  lemma IntendedNotes(guildName: string, guildId: int, rows: seq<SubuserRow>, users: set<int>)
    ensures GuildNotes(GuildRun(guildId, guildName, IntendedChecks(rows, users), None))
            == SummaryNotes(guildName, guildId, OrphanIssues(rows, users), 1, 0)
  {
    var checks := IntendedChecks(rows, users);
    assert checks[..0] == [];
    assert AllIssues(checks) == OrphanIssues(rows, users);
    assert FailureNotes(checks) == [] && FailedCount(checks) == 0 && RunCount(checks) == 1;
  }

  /** Once the query can run, a guild gets exactly one notification: an alert
      counting the orphaned rows iff some subuser row has no parent user, and
      the success notice otherwise. */
  lemma CorrectedCheckReports(guildName: string, guildId: int, rows: seq<SubuserRow>, users: set<int>)
    ensures var notes := GuildNotes(GuildRun(guildId, guildName, IntendedChecks(rows, users), None));
            |notes| == 1
            && (notes[0].SystemAlert? <==> exists r :: r in rows && r.userId !in users)
            && (notes[0].SuccessNotice? <==> forall r :: r in rows ==> r.userId in users)
            && (notes[0].SystemAlert? ==> notes[0].totalIssues == |OrphanIssues(rows, users)|)
  {
    IntendedNotes(guildName, guildId, rows, users);
    OrphanFreeIff(rows, users);
  }
}
