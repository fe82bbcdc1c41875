/** Commit aggregation (`git/history.py`): the free-text "since" grammar, the
    classification of a commit-range argument, grouping commits by calendar
    day, the display projection and the activity summary.

    The repository walk itself (GitPython's `iter_commits` and `stats`) is not
    modelled: every operation here takes the commits as a sequence, newest
    first, as the walk yields them. Instants are whole seconds. */
module History {
  import opened Common
  import opened Text

  /** A calendar date. `strftime("%Y-%m-%d")` renders distinct dates as
      distinct keys, so the date itself stands for its key. */
  datatype Date = Date(year: int, month: int, day: int)

  /** A commit timestamp: its local date and the second within that day. */
  datatype DateTime = DateTime(date: Date, secondOfDay: nat)

  /** `CommitInfo`. Insertion and deletion counts come from git and are never
      negative. */
  datatype CommitInfo = CommitInfo(
    hash: string, shortHash: string, message: string, author: string,
    date: DateTime, filesChanged: seq<string>, insertions: nat, deletions: nat)

  // ---------------------------------------------------------------------------
  // parse_since
  // ---------------------------------------------------------------------------

  const HourSeconds := 3600
  const DaySeconds := 24 * HourSeconds

  /** The length of one unit of the "N unit" grammar; `None` for any other word. */
  function UnitSeconds(unit: string): Option<int>
  {
    if unit == "day" then Some(DaySeconds)
    else if unit == "week" then Some(7 * DaySeconds)
    else if unit == "month" then Some(30 * DaySeconds)
    else if unit == "hour" then Some(HourSeconds)
    else None
  }

  /** The fallback look-back: seven days. */
  function DefaultCutoff(now: int): int
  {
    now - 7 * DaySeconds
  }

  /** `parse_since`: lower-case and trim the text, split it on whitespace and,
      for exactly two tokens "N unit" with an integer N and a unit that is
      day, week, month or hour once every trailing 's' is removed, go back N
      such units from `now`; anything else goes back seven days. */
  function ParseSince(since: string, now: int): int
  {
    var parts := SplitWs(Strip(Lower(since)));
    if |parts| == 2 then
      match ParseInt(parts[0])
      case None => DefaultCutoff(now)
      case Some(amount) =>
        match UnitSeconds(RStripChar(parts[1], 's'))
        case None => DefaultCutoff(now)
        case Some(unit) => now - amount * unit
    else DefaultCutoff(now)
  }

  /** The text "N unit" or "N units", as `str(N)` writes N. */
  function DurationText(amount: int, unit: string, plural: bool): string
  {
    ShowInt(amount) + " " + unit + (if plural then "s" else "")
  }

  /** A duration written in the grammar goes back exactly N units, with or
      without the plural 's'. */
  lemma ParseSinceDuration(amount: int, unit: string, plural: bool, now: int)
    requires UnitSeconds(unit).Some?
    ensures ParseSince(DurationText(amount, unit, plural), now)
            == now - amount * UnitSeconds(unit).value
  {
    DurationTokens(amount, unit, plural);
    ParseShowInt(amount);
    RStripPlural(unit, plural);
  }

  /** The duration text splits into the number and the unit word. */
  lemma DurationTokens(amount: int, unit: string, plural: bool)
    requires UnitSeconds(unit).Some?
    ensures SplitWs(Strip(Lower(DurationText(amount, unit, plural))))
            == [ShowInt(amount), unit + (if plural then "s" else "")]
  {
    var n := ShowInt(amount);
    var word := unit + (if plural then "s" else "");
    var s := DurationText(amount, unit, plural);
    assert s == n + " " + word;
    ShowIntShape(amount);
    UnitWordShape(unit, plural);
    assert NoUpper(s) by {
      NoUpperConcat(n, " ");
      NoUpperConcat(n + " ", word);
    }
    LowerKeepsLowercase(s);
    assert s[0] == n[0];
    assert s[|s| - 1] == word[|word| - 1];
    StripKeepsTrimmed(s);
    SplitTwoWords(n, word);
  }

  /** Units and their plurals are non-empty lower-case words that end in a letter
      other than whitespace. */
  lemma UnitWordShape(unit: string, plural: bool)
    requires UnitSeconds(unit).Some?
    ensures var word := unit + (if plural then "s" else "");
      word != [] && NoSpace(word) && NoUpper(word) && !IsSpace(word[|word| - 1])
  {
  }

  /** `rstrip("s")` turns a unit or its plural back into the unit. */
  lemma RStripPlural(unit: string, plural: bool)
    requires UnitSeconds(unit).Some?
    ensures RStripChar(unit + (if plural then "s" else ""), 's') == unit
  {
    assert unit[|unit| - 1] != 's';
    if plural {
      assert (unit + "s")[..|unit|] == unit;
    } else {
      assert unit + [] == unit;
    }
  }

  lemma NoUpperConcat(a: string, b: string)
    requires NoUpper(a) && NoUpper(b)
    ensures NoUpper(a + b)
  {
    assert forall i :: |a| <= i < |a + b| ==> (a + b)[i] == b[i - |a|];
  }

  /** Input that is not two whitespace-separated tokens, or whose first token
      is not an integer, or whose unit is unknown, falls back to seven days;
      otherwise the cutoff lies a whole number of units before `now`. */
  lemma ParseSinceFallback(since: string, now: int)
    ensures var parts := SplitWs(Strip(Lower(since)));
      && (|parts| != 2 ==> ParseSince(since, now) == DefaultCutoff(now))
      && (|parts| == 2 && ParseInt(parts[0]).None? ==> ParseSince(since, now) == DefaultCutoff(now))
      && (|parts| == 2 && UnitSeconds(RStripChar(parts[1], 's')).None? ==>
            ParseSince(since, now) == DefaultCutoff(now))
      && (|parts| == 2 && ParseInt(parts[0]).Some? && UnitSeconds(RStripChar(parts[1], 's')).Some? ==>
            ParseSince(since, now)
            == now - ParseInt(parts[0]).value * UnitSeconds(RStripChar(parts[1], 's')).value)
  {
  }

  /** A concrete input: the text is lowered and trimmed before it is split. */
  lemma TwoWeeksAgo(now: int)
    ensures ParseSince("  2 WEEKS ", now) == now - 14 * DaySeconds
  {
    TwoWeeksTokens();
    TwoWeeksValues();
  }

  lemma TwoWeeksTokens()
    ensures SplitWs(Strip(Lower("  2 WEEKS "))) == ["2", "weeks"]
  {
    LowerTwoWeeks();
    StripTwoWeeks();
    SplitTwoWeeks();
  }

  lemma LowerTwoWeeks()
    ensures Lower("  2 WEEKS ") == "  2 weeks "
  {
  }

  lemma SplitTwoWeeks()
    ensures SplitWs("2 weeks") == ["2", "weeks"]
  {
    assert "2 weeks" == "2" + " " + "weeks";
    assert NoSpace("weeks");
    SplitTwoWords("2", "weeks");
  }

  lemma TwoWeeksValues()
    ensures ParseInt("2") == Some(2)
    ensures UnitSeconds(RStripChar("weeks", 's')) == Some(7 * DaySeconds)
  {
    assert RStripChar("weeks", 's') == "week";
  }

  lemma StripTwoWeeks()
    ensures Strip("  2 weeks ") == "2 weeks"
  {
    TwoWeeksMargins();
    assert "  2 weeks "[2..] == "2 weeks ";
    assert "  2 weeks "[2..9] == "2 weeks";
  }

  lemma TwoWeeksMargins()
    ensures LeadingSpaces("  2 weeks ") == 2
    ensures TrailingSpaces("2 weeks ") == 1
  {
    assert "  2 weeks "[1..] == " 2 weeks ";
    assert " 2 weeks "[1..] == "2 weeks ";
    assert "2 weeks "[..7] == "2 weeks";
  }

  // ---------------------------------------------------------------------------
  // The commit-range classification inside get_commits
  // ---------------------------------------------------------------------------

  /** Which walk `get_commits` asks the repository for. */
  datatype CommitSelection =
    | SinceCutoff(cutoff: int)
    | LastN(count: int)
    | Between(range: string)
    | Single(hash: string)

  /** The branch `get_commits` takes: no range (or an empty one) walks back to
      the `since` cutoff; a range starting with "last " in any case takes the
      integer after it, or 10 when that token is missing or not an integer; a
      range containing ".." is walked as a range; anything else names one
      commit. */
  function SelectCommits(commitRange: Option<string>, since: string, now: int): CommitSelection
  {
    if commitRange.None? || commitRange.value == [] then SinceCutoff(ParseSince(since, now))
    else
      var r := commitRange.value;
      if StartsWith(Lower(r), "last ") then
        var parts := SplitWs(r);
        if |parts| >= 2 && ParseInt(parts[1]).Some? then LastN(ParseInt(parts[1]).value)
        else LastN(10)
      else if Contains(r, "..") then Between(r)
      else Single(r)
  }

  /** The classification is total and exclusive: a non-empty range is "last N"
      exactly when it starts with "last " ignoring case, even if it also holds
      ".."; otherwise it is a range exactly when it contains "..", and
      otherwise the range is taken as one commit hash. */
  lemma SelectionCases(r: string, since: string, now: int)
    requires r != []
    ensures var sel := SelectCommits(Some(r), since, now);
      && (sel.LastN? <==> StartsWith(Lower(r), "last "))
      && (sel.Between? <==> !StartsWith(Lower(r), "last ") && Contains(r, ".."))
      && (sel.Single? <==> !StartsWith(Lower(r), "last ") && !Contains(r, ".."))
      && (sel.Between? ==> sel.range == r)
      && (sel.Single? ==> sel.hash == r)
      && !sel.SinceCutoff?
  {
  }

  /** "last N" (any capitalisation of "last") selects the N newest commits. */
  lemma LastCount(last: string, n: int, since: string, now: int)
    requires Lower(last) == "last"
    ensures SelectCommits(Some(last + " " + ShowInt(n)), since, now) == LastN(n)
  {
    var r := last + " " + ShowInt(n);
    ShowIntShape(n);
    assert |last| == 4;
    LowerPrefix(last + " ", ShowInt(n));
    assert Lower(last + " ") == Lower(last) + Lower(" ");
    assert Lower(r)[..5] == "last ";
    assert last != [] && NoSpace(last) by {
      forall i | 0 <= i < |last|
        ensures !IsSpace(last[i])
      {
        assert Lower(last)[i] == LowerChar(last[i]);
      }
    }
    SplitTwoWords(last, ShowInt(n));
    ParseShowInt(n);
  }

  /** "last" followed by a token that is not an integer falls back to the 10
      newest commits. */
  lemma LastFallback(word: string, since: string, now: int)
    requires word != [] && NoSpace(word) && ParseInt(word).None?
    ensures SelectCommits(Some("last " + word), since, now) == LastN(10)
  {
    var r := "last " + word;
    LowerPrefix("last ", word);
    assert Lower(r)[..5] == "last ";
    assert r == "last" + " " + word;
    SplitTwoWords("last", word);
  }

  /** "last " with nothing after it also falls back to the 10 newest commits. */
  lemma LastAlone(since: string, now: int)
    ensures SelectCommits(Some("last "), since, now) == LastN(10)
  {
    assert Lower("last ") == "last ";
    LastAloneTokens();
  }

  lemma LastAloneTokens()
    ensures SplitWs("last ") == ["last"]
  {
    SplitFirstWord("last", " ");
    assert LeadingSpaces(" ") == 1;
    assert "last" + " " == "last ";
  }

  /** A concrete input: "last " wins over "..", and the token after it is not
      an integer, so ten commits are taken. */
  lemma LastBeatsRange(since: string, now: int)
    ensures SelectCommits(Some("Last 3..5"), since, now) == LastN(10)
  {
    LastPrefix();
    LastTokens();
    RangeIsNotInt();
  }

  lemma RangeIsNotInt()
    ensures ParseInt("3..5") == None
  {
    assert !IsDigit("3..5"[1]) && "3..5"[1] != '_';
  }

  lemma LastPrefix()
    ensures StartsWith(Lower("Last 3..5"), "last ")
  {
    assert Lower("Last 3..5")[..5] == "last ";
  }

  lemma LastTokens()
    ensures SplitWs("Last 3..5") == ["Last", "3..5"]
  {
    assert "Last 3..5" == "Last" + " " + "3..5";
    assert NoSpace("Last") && NoSpace("3..5");
    SplitTwoWords("Last", "3..5");
  }

  lemma LowerPrefix(a: string, b: string)
    ensures Lower(a + b)[..|a|] == Lower(a)
  {
  }

  // ---------------------------------------------------------------------------
  // group_commits_by_day
  // ---------------------------------------------------------------------------

  function DatedOn(d: Date): CommitInfo -> bool
  {
    (c: CommitInfo) => c.date.date == d
  }

  /** The commits of day `d`, in input order. */
  function OnDay(commits: seq<CommitInfo>, d: Date): seq<CommitInfo>
  {
    Filter(commits, DatedOn(d))
  }

  /** The days that occur in `commits`, each once, in order of first appearance:
      the key order of the dictionary `group_commits_by_day` builds. */
  function DistinctDays(commits: seq<CommitInfo>): (r: seq<Date>)
    ensures forall i, j :: 0 <= i < j < |r| ==> r[i] != r[j]
    ensures forall d :: d in r <==> exists c :: c in commits && c.date.date == d
    decreases |commits|
  {
    if commits == [] then []
    else
      var p := commits[..|commits| - 1];
      var c := commits[|commits| - 1];
      assert commits == p + [c];
      var r := DistinctDays(p);
      if c.date.date in r then r else r + [c.date.date]
  }

  /** `group_commits_by_day`: one pass that appends each commit to the list of
      its day, creating the list on the day's first commit. The result is the
      dictionary's keys in insertion order and the dictionary itself. */
  method GroupByDay(commits: seq<CommitInfo>) returns (days: seq<Date>, groups: map<Date, seq<CommitInfo>>)
    ensures days == DistinctDays(commits)
    ensures forall d :: d in groups <==> d in days
    ensures forall d :: d in groups ==> groups[d] == OnDay(commits, d)
  {
    days := [];
    groups := map[];
    for i := 0 to |commits|
      invariant days == DistinctDays(commits[..i])
      invariant forall d :: d in groups <==> d in days
      invariant forall d :: d in groups ==> groups[d] == OnDay(commits[..i], d)
    {
      var c := commits[i];
      var key := c.date.date;
      GroupStep(commits, i, days, groups);
      var group := if key in groups then groups[key] else [];
      if key !in groups {
        days := days + [key];
      }
      groups := groups[key := group + [c]];
    }
    assert commits[..|commits|] == commits;
  }

  /** One loop step of `GroupByDay`: adding a commit to the groups of a
      prefix gives the groups of the prefix extended by that commit. */
  lemma GroupStep(commits: seq<CommitInfo>, i: nat, days: seq<Date>, groups: map<Date, seq<CommitInfo>>)
    requires i < |commits|
    requires days == DistinctDays(commits[..i])
    requires forall d :: d in groups <==> d in days
    requires forall d :: d in groups ==> groups[d] == OnDay(commits[..i], d)
    ensures var key := commits[i].date.date;
      var days' := if key in groups then days else days + [key];
      var groups' := groups[key := (if key in groups then groups[key] else []) + [commits[i]]];
      && days' == DistinctDays(commits[..i + 1])
      && (forall d :: d in groups' <==> d in days')
      && (forall d :: d in groups' ==> groups'[d] == OnDay(commits[..i + 1], d))
  {
    var prefix, c := commits[..i], commits[i];
    assert commits[..i + 1] == prefix + [c];
    var key := c.date.date;
    assert (prefix + [c])[..|prefix|] == prefix;
    if key !in groups {
      NoCommitsOnNewDay(prefix, key);
    }
    var groups' := groups[key := (if key in groups then groups[key] else []) + [c]];
    forall d | d in groups'
      ensures groups'[d] == OnDay(prefix + [c], d)
    {
      OnDaySnoc(prefix, c, d);
    }
  }

  /** One more commit joins the group of its own day only. */
  lemma OnDaySnoc(commits: seq<CommitInfo>, c: CommitInfo, d: Date)
    ensures OnDay(commits + [c], d) == OnDay(commits, d) + (if c.date.date == d then [c] else [])
  {
    FilterSnoc(commits, c, DatedOn(d));
  }

  /** A day that does not occur among the commits has no commits. */
  lemma NoCommitsOnNewDay(commits: seq<CommitInfo>, d: Date)
    requires d !in DistinctDays(commits)
    ensures OnDay(commits, d) == []
  {
    forall i | 0 <= i < |commits|
      ensures !DatedOn(d)(commits[i])
    {
      assert commits[i] in commits;
    }
    FilterNone(commits, DatedOn(d));
  }

  /** Every commit is in the group of its own day and in no other group. */
  lemma GroupsAreByOwnDay(commits: seq<CommitInfo>, c: CommitInfo, d: Date)
    requires c in commits
    ensures c in OnDay(commits, c.date.date)
    ensures d != c.date.date ==> c !in OnDay(commits, d)
    ensures c.date.date in DistinctDays(commits)
  {
    FilterMembership(commits, DatedOn(c.date.date), c);
    FilterMembership(commits, DatedOn(d), c);
  }

  /** The total size of the groups of `days`. */
  function GroupSizes(commits: seq<CommitInfo>, days: seq<Date>): nat
    decreases |days|
  {
    if days == [] then 0
    else GroupSizes(commits, days[..|days| - 1]) + |OnDay(commits, days[|days| - 1])|
  }

  /** One more commit adds one to the group sizes of a key list that holds its
      day once, and nothing otherwise. */
  lemma {:induction false} GroupSizesSnoc(commits: seq<CommitInfo>, c: CommitInfo, days: seq<Date>)
    requires forall i, j :: 0 <= i < j < |days| ==> days[i] != days[j]
    ensures GroupSizes(commits + [c], days)
            == GroupSizes(commits, days) + (if c.date.date in days then 1 else 0)
    decreases |days|
  {
    if days != [] {
      var p := days[..|days| - 1];
      var d := days[|days| - 1];
      assert days == p + [d];
      GroupSizesSnoc(commits, c, p);
      FilterSnoc(commits, c, DatedOn(d));
      if d == c.date.date {
        assert c.date.date !in p;
      }
    }
  }

  /** The groups partition the input: their sizes add up to the number of
      commits. */
  lemma {:induction false} GroupsPartition(commits: seq<CommitInfo>)
    ensures GroupSizes(commits, DistinctDays(commits)) == |commits|
    decreases |commits|
  {
    if commits != [] {
      var p := commits[..|commits| - 1];
      var c := commits[|commits| - 1];
      assert commits == p + [c];
      var days := DistinctDays(p);
      GroupsPartition(p);
      GroupSizesSnoc(p, c, days);
      if c.date.date !in days {
        var key := c.date.date;
        assert DistinctDays(commits) == days + [key];
        assert (days + [key])[..|days|] == days;
        NoCommitsOnNewDay(p, key);
        FilterSnoc(p, c, DatedOn(key));
      }
    }
  }

  // ---------------------------------------------------------------------------
  // format_commits_for_display
  // ---------------------------------------------------------------------------

  /** One entry of the display list; `date` is the `isoformat()` text. */
  datatype DisplayedCommit = DisplayedCommit(
    hash: string, message: string, author: string, date: string,
    filesChanged: seq<string>, stats: string)

  /** `f"+{insertions}/-{deletions}"`. */
  function StatsText(insertions: nat, deletions: nat): string
  {
    "+" + ShowNat(insertions) + "/-" + ShowNat(deletions)
  }

  /** `format_commits_for_display`: one entry per commit, in order, with the
      short hash, the first line of the message and the stats text.
      `isoformat` renders timestamps; its text is not modelled. */
  function FormatForDisplay(commits: seq<CommitInfo>, isoformat: DateTime -> string): (r: seq<DisplayedCommit>)
    ensures |r| == |commits|
    ensures forall i :: 0 <= i < |r| ==>
      && r[i].hash == commits[i].shortHash
      && r[i].author == commits[i].author
      && r[i].filesChanged == commits[i].filesChanged
      && r[i].date == isoformat(commits[i].date)
      && r[i].message <= commits[i].message
      && '\n' !in r[i].message
      && (r[i].message == commits[i].message || commits[i].message[|r[i].message|] == '\n')
      && ParseStats(r[i].stats) == Some((commits[i].insertions, commits[i].deletions))
  {
    forall c | c in commits
      ensures ParseStats(StatsText(c.insertions, c.deletions)) == Some((c.insertions, c.deletions))
    {
      ParseStatsText(c.insertions, c.deletions);
    }
    seq(|commits|, i requires 0 <= i < |commits| =>
      var c := commits[i];
      DisplayedCommit(c.shortHash, FirstLine(c.message), c.author, isoformat(c.date),
                      c.filesChanged, StatsText(c.insertions, c.deletions)))
  }

  /** The index of the first `x` in `s`; `|s|` if there is none. */
  function IndexOf(s: string, x: char): (k: nat)
    ensures k <= |s|
    ensures forall j :: 0 <= j < k ==> s[j] != x
    ensures k < |s| ==> s[k] == x
    decreases |s|
  {
    if s == [] || s[0] == x then 0 else 1 + IndexOf(s[1..], x)
  }

  /** Reads a stats text back: '+', digits, "/-", digits. */
  function ParseStats(s: string): Option<(nat, nat)>
  {
    var k := IndexOf(s, '/');
    if 1 <= k && k + 1 < |s| && s[0] == '+' && s[k + 1] == '-' then
      match (ParseNat(s[1..k]), ParseNat(s[k + 2..]))
      case (Some(a), Some(b)) => Some((a, b))
      case _ => None
    else None
  }

  /** The stats text determines both counts. */
  lemma ParseStatsText(insertions: nat, deletions: nat)
    ensures ParseStats(StatsText(insertions, deletions)) == Some((insertions, deletions))
  {
    var a, b := ShowNat(insertions), ShowNat(deletions);
    var s := StatsText(insertions, deletions);
    assert s == "+" + a + "/-" + b;
    var k := 1 + |a|;
    forall j | 0 <= j < k
      ensures s[j] != '/'
    {
      if j > 0 {
        assert s[j] == a[j - 1];
      }
    }
    assert s[k] == '/';
    assert IndexOf(s, '/') == k;
    assert s[1..k] == a;
    assert s[k + 2..] == b;
    ParseShowNat(insertions);
    ParseShowNat(deletions);
  }

  // ---------------------------------------------------------------------------
  // get_activity_summary
  // ---------------------------------------------------------------------------

  /** "date_range": the timestamps of the last and the first commit. */
  datatype DateRange = DateRange(oldest: DateTime, newest: DateTime)

  datatype ActivitySummary = ActivitySummary(
    totalCommits: nat, filesChanged: seq<string>, totalInsertions: nat, totalDeletions: nat,
    dateRange: Option<DateRange>)

  function TotalInsertions(commits: seq<CommitInfo>): nat
    decreases |commits|
  {
    if commits == [] then 0
    else TotalInsertions(commits[..|commits| - 1]) + commits[|commits| - 1].insertions
  }

  function TotalDeletions(commits: seq<CommitInfo>): nat
    decreases |commits|
  {
    if commits == [] then 0
    else TotalDeletions(commits[..|commits| - 1]) + commits[|commits| - 1].deletions
  }

  /** The paths of one commit's file list, as a set. */
  function FileSet(files: seq<string>): (r: set<string>)
    ensures forall f :: f in r <==> f in files
  {
    set i | 0 <= i < |files| :: files[i]
  }

  /** Every file path any of the commits touched. */
  function FilesTouched(commits: seq<CommitInfo>): (r: set<string>)
    ensures forall f :: f in r <==> exists i :: 0 <= i < |commits| && f in commits[i].filesChanged
    decreases |commits|
  {
    if commits == [] then {}
    else
      var p := commits[..|commits| - 1];
      var r := FilesTouched(p);
      assert forall i :: 0 <= i < |p| ==> p[i] == commits[i];
      r + FileSet(commits[|commits| - 1].filesChanged)
  }

  /** The totals add up over consecutive runs of commits. */
  lemma {:induction false} TotalsConcat(s: seq<CommitInfo>, t: seq<CommitInfo>)
    ensures TotalInsertions(s + t) == TotalInsertions(s) + TotalInsertions(t)
    ensures TotalDeletions(s + t) == TotalDeletions(s) + TotalDeletions(t)
    decreases |t|
  {
    if t == [] {
      assert s + t == s;
    } else {
      var u := t[..|t| - 1];
      assert (s + t)[..|s + t| - 1] == s + u;
      TotalsConcat(s, u);
    }
  }

  /** `sorted(files)`: the set as a strictly ascending sequence. */
  method SortedListing(files: set<string>) returns (r: seq<string>)
    ensures StrictlySorted(r)
    ensures forall f :: f in r <==> f in files
  {
    r := [];
    var rest := files;
    while rest != {}
      invariant rest <= files
      invariant StrictlySorted(r)
      invariant forall f :: f in r <==> f in files && f !in rest
      decreases rest
    {
      var x :| x in rest;
      r := InsertSorted(r, x);
      rest := rest - {x};
    }
  }

  /** `get_activity_summary`: the empty summary for no commits; otherwise the
      count, every touched file once in ascending order, the summed insertions
      and deletions, and the timestamps of the last (oldest) and first (newest)
      commit. */
  method GetActivitySummary(commits: seq<CommitInfo>) returns (s: ActivitySummary)
    ensures commits == [] ==> s == ActivitySummary(0, [], 0, 0, None)
    ensures s.totalCommits == |commits|
    ensures s.totalInsertions == TotalInsertions(commits)
    ensures s.totalDeletions == TotalDeletions(commits)
    ensures StrictlySorted(s.filesChanged)
    ensures forall f :: f in s.filesChanged <==> f in FilesTouched(commits)
    ensures commits != [] ==> s.dateRange == Some(DateRange(commits[|commits| - 1].date, commits[0].date))
  {
    if commits == [] {
      return ActivitySummary(0, [], 0, 0, None);
    }
    var allFiles: set<string> := {};
    var insertions, deletions := 0, 0;
    for i := 0 to |commits|
      invariant allFiles == FilesTouched(commits[..i])
      invariant insertions == TotalInsertions(commits[..i])
      invariant deletions == TotalDeletions(commits[..i])
    {
      assert commits[..i + 1][..i] == commits[..i];
      allFiles := allFiles + FileSet(commits[i].filesChanged);
      insertions := insertions + commits[i].insertions;
      deletions := deletions + commits[i].deletions;
    }
    assert commits[..|commits|] == commits;
    var files := SortedListing(allFiles);
    s := ActivitySummary(|commits|, files, insertions, deletions,
                         Some(DateRange(commits[|commits| - 1].date, commits[0].date)));
  }

  /** The file list is the only strictly sorted listing of the touched files. */
  lemma FileListingUnique(summary: seq<string>, other: seq<string>, commits: seq<CommitInfo>)
    requires StrictlySorted(summary) && StrictlySorted(other)
    requires forall f :: f in summary <==> f in FilesTouched(commits)
    requires forall f :: f in other <==> f in FilesTouched(commits)
    ensures summary == other
  {
    SortedUnique(summary, other);
  }
}
