# milestoner — a Dafny model of its scheduling, history and storage core

milestoner is an MCP server that turns a developer's git activity into social
media posts. This project models the parts of it that decide things, not the
parts that talk to the outside world:

- **Scheduling** (`scheduling.dfy`) is the posting-time advisor. It holds the
  constant table of research-based engagement slots for each weekday and the
  table of hour windows to avoid. It rates the current hour with a first-match
  rule (`_assess_current_time`). It builds the list of upcoming recommended
  slots with their "high"/"medium" priority (`get_optimal_times`), computes the
  next Wednesday 10:00, and looks up the content-type suggestion
  (`suggest_posting_time`).
- **History** (`history.dfy`) covers the git helpers:
  - the free-text "since" grammar (`parse_since`);
  - the classification of a commit-range argument inside `get_commits`;
  - grouping commits by calendar day;
  - the display projection of commits;
  - the activity summary with its totals and sorted file list.
- **ConfigStore** (`config_store.dfy`) covers the configuration directory:
  `config.json` and `post-history.json`, read whole, changed in memory and
  written back whole. It is a class whose field maps each existing file to its
  JSON document.
- **ScheduledPosts** (`scheduled_posts.dfy`) is the scheduled-post list:
  - the decision `schedule_post` makes: platform, length limit, then time;
  - appending the new record;
  - cancelling or marking a record as posted, in place;
  - the "visible", "pending" and "due" filters.

  It is a class whose field is the list of records.
- **Text** and **Common** (`text.dfy`, `common.dfy`) hold the Python string
  operations the code relies on, written out over `seq<char>`, and a generic
  order-preserving `Filter`:
  - `lower()`, `strip()`, `split()`, `rstrip(c)` and `startswith`;
  - the `in` substring test and `split("\n")[0]`;
  - `int()` of a token and `str()` of an integer;
  - string comparison.

The wall clock, the time zone, `isoformat()` rendering, the validity test of
`datetime.fromisoformat`, and the ids and timestamps taken from the clock are
all parameters. Instants in `parse_since` are integer seconds. The advisor sees
"now" as a weekday, an hour and a minute. Its recommended slots are a number of
days ahead plus a wall-clock time.

In four places the code does something other than its names and comments
suggest; the model follows the code:

- The avoid window `(23, 6)` is tested as `23 <= hour < 6`, which no hour
  satisfies. Late night is therefore rated "okay" (score 5), not "poor"
  (`Scheduling.NightRatedOkay`).
- A post's status is not terminal. Cancelling a posted record and marking a
  cancelled one as posted both succeed (`ScheduledPosts.StatusesNotTerminal`).
- `get_scheduled_posts` keeps records scheduled for now or later **or** already
  posted. It drops cancelled and still-scheduled records whose time has passed
  (`ScheduledPosts.VisibleRecords`).
- The Monday 13:00 slot lies inside the 13–16 avoid window. Avoid windows are
  checked first, so the peak Monday slot is rated "poor"
  (`Scheduling.MondayPeakRatedPoor`).

## Model

| member | source | states |
|---|---|---|
| Common.Filter | src/milestoner/tools/schedule_post.py:19 | the list comprehension `[p for p in posts if …]`: never longer than its input, and every element kept satisfies the test |
| Common.FilterMembership | src/milestoner/tools/schedule_post.py:19 | an element is kept exactly when it occurs in the input and passes the test |
| Common.FilterConcat | src/milestoner/tools/schedule_post.py:140-143 | filtering a concatenation is the concatenation of the filtered parts |
| Text.Strip | src/milestoner/git/history.py:35 | `strip()`: the result is the input with a run of whitespace removed from each end, and it neither starts nor ends with whitespace |
| Text.StripKeepsTrimmed | src/milestoner/git/history.py:35 | text that neither starts nor ends with whitespace is unchanged by `strip()` |
| Text.SplitWs | src/milestoner/git/history.py:39 | `split()`: every part is a non-empty run without whitespace |
| Text.SplitSkipsSpaces | src/milestoner/git/history.py:39 | `split()` ignores leading whitespace: prefixing any run of whitespace leaves the parts unchanged |
| Text.SplitTwoWords | src/milestoner/git/history.py:39-40 | two words joined by one space split back into exactly those two parts |
| Text.SplitFirstWord | src/milestoner/git/history.py:83 | a word followed by whitespace is split off as the first part |
| Text.Lower | src/milestoner/git/history.py:35 | `lower()` keeps the length and lowers each character independently |
| Text.LowerKeepsLowercase | src/milestoner/git/history.py:35 | text without capitals is unchanged by `lower()` |
| Text.RStripChar | src/milestoner/git/history.py:43 | `rstrip("s")`: a prefix of the input, not ending in "s", and only "s" was removed |
| Text.FirstLine | src/milestoner/git/history.py:135 | `split("\n")[0]`: a prefix without line breaks, ending where the input ends or at its first line break |
| Text.ReplaceChar | src/milestoner/tools/schedule_post.py:74 | `replace("Z", …)`: no "Z" remains when the replacement has none, and text without "Z" is unchanged |
| Text.ReplaceCharSingle | src/milestoner/tools/schedule_post.py:74 | one character becomes the replacement if it is the one replaced, and stays otherwise |
| Text.ReplaceCharConcat | src/milestoner/tools/schedule_post.py:74 | replacing works piece by piece: the replacement of a concatenation is the concatenation of the replacements |
| Text.ShowNat | src/milestoner/git/history.py:139 | `str(n)` for n ≥ 0: non-empty decimal digits without a leading zero |
| Text.DigitsValueOfShowNat | src/milestoner/git/history.py:139 | the digits of `str(n)` denote n |
| Text.ParseShowNat | src/milestoner/git/history.py:139 | reading the digits of `str(n)` back gives n |
| Text.ParseShowInt | src/milestoner/git/history.py:42 | `int(str(n)) == n` for every integer n |
| Text.ShowIntShape | src/milestoner/git/history.py:42 | `str(n)` is one non-empty token without whitespace or capitals |
| Text.StrLtIrreflexive | src/milestoner/git/history.py:167 | Python's string order is irreflexive |
| Text.StrLtTransitive | src/milestoner/git/history.py:167 | Python's string order is transitive |
| Text.StrLtTotal | src/milestoner/git/history.py:167 | any two distinct strings are ordered one way or the other |
| Text.StrLtAsymmetric | src/milestoner/tools/schedule_post.py:142 | no two strings are each less than the other |
| Text.InsertSorted | src/milestoner/git/history.py:167 | inserting into a strictly ascending list keeps it strictly ascending and adds exactly the new element |
| Text.SortedUnique | src/milestoner/git/history.py:167 | two strictly ascending lists with the same elements are equal, so `sorted(set)` is determined by the set |
| Text.ContainsAt | src/milestoner/scheduling.py:60 | `sub in s` holds when `sub` occurs at some position of `s` |
| Text.ContainsWitness | src/milestoner/scheduling.py:60 | conversely, when `sub in s` holds, `sub` occurs at some position of `s` |
| Scheduling.Assess | src/milestoner/scheduling.py:107-139 | `_assess_current_time`: the first avoid window containing the hour rates "poor" (score 2), otherwise a slot on the hour "excellent" (9), one within an hour "good" (7), else "okay" (5); its contract is in Scheduling.PoorExactlyAfternoon, Scheduling.RatingOutsideAvoid and Scheduling.ScoreMatchesQuality |
| Scheduling.FirstAvoid | src/milestoner/scheduling.py:113-120 | the first avoid window that contains the hour: none before it does, and it does |
| Scheduling.FirstNear | src/milestoner/scheduling.py:123-131 | the first slot within one hour: none before it is, and it is |
| Scheduling.AvoidMatchesOnlyAfternoon | src/milestoner/scheduling.py:24-27 | the `(23, 6)` window contains no hour, and some window contains the hour exactly for 13 ≤ hour < 16 |
| Scheduling.PoorExactlyAfternoon | src/milestoner/scheduling.py:107-120 | the rating is "poor" exactly for hours 13, 14 and 15, and then the score is 2 |
| Scheduling.MondayPeakRatedPoor | src/milestoner/scheduling.py:107-131 | Monday 13:00 is an optimal slot, yet it is rated "poor" with score 2 and the deep-work reason |
| Scheduling.RatingOutsideAvoid | src/milestoner/scheduling.py:122-139 | outside 13–16: "excellent" iff a slot is on the hour, "good" iff one is an hour off and none on it, "okay" iff none is within an hour; the reason is that of the first slot within an hour |
| Scheduling.ScoreMatchesQuality | src/milestoner/scheduling.py:107-139 | the score is one of 2, 5, 7, 9 and is determined by the quality |
| Scheduling.NightRatedOkay | src/milestoner/scheduling.py:113-139 | hour 23 and hours 0–5 are rated "okay" with score 5 |
| Scheduling.SlotsSpaced | src/milestoner/scheduling.py:9-21 | each day's slots ascend and are at least two hours apart |
| Scheduling.EveryDayHasSlots | src/milestoner/scheduling.py:9-21 | every weekday has at least one slot |
| Scheduling.SlotHours | src/milestoner/scheduling.py:9-21 | every slot lies between 10:00 and 18:00 |
| Scheduling.RecommendAll | src/milestoner/scheduling.py:68-79 | one recommendation per slot, in slot order, each built from its own slot |
| Scheduling.UpcomingNonEmpty | src/milestoner/scheduling.py:64-79 | the list holds at least every slot of the next weekday, so it is never empty |
| Scheduling.UpcomingContents | src/milestoner/scheduling.py:46-79 | a today slot is recommended iff it is later than now; "today" entries are dated today and come before all others; the tail is exactly the next weekday's slots, in order |
| Scheduling.Upcoming | src/milestoner/scheduling.py:46-79 | the two loops of `get_optimal_times`: today's later slots, then every slot of the next weekday; its contract is in Scheduling.UpcomingContents and Scheduling.UpcomingNonEmpty |
| Scheduling.PriorityOf | src/milestoner/scheduling.py:60 | `"high" if "peak" in desc.lower() else "medium"`; its contract is Scheduling.PriorityMeansPeak |
| Scheduling.PriorityMeansPeak | src/milestoner/scheduling.py:60 | the priority is "high" exactly when "peak" occurs at some position of the lowered description |
| Scheduling.Pad2 | src/milestoner/scheduling.py:57 | the zero-padded two-digit field of `strftime`; its contract is Scheduling.Pad2ReadsBack |
| Scheduling.Pad2ReadsBack | src/milestoner/scheduling.py:57 | two digit characters that read back as the number |
| Scheduling.ClockText | src/milestoner/scheduling.py:57 | `strftime("%I:%M %p")`; its contract is Scheduling.ClockTextReadsBack |
| Scheduling.ClockTextReadsBack | src/milestoner/scheduling.py:74 | "hh:mm AM/PM": the hour on the 12-hour dial (1 to 12), the minute and the half of the day, which together give back the hour and minute |
| Scheduling.RecommendDescribesSlot | src/milestoner/scheduling.py:68-78 | an entry is its slot on the given day, with the `%A` name of that day, a time text that reads back as the slot's time, the slot's description, and "high" priority exactly when "peak" occurs in it |
| Scheduling.AvoidNotes | src/milestoner/scheduling.py:100-103 | one note per avoid window, in table order; its contract is Scheduling.AvoidNotesText |
| Scheduling.AvoidNotesText | src/milestoner/scheduling.py:100-103 | the notes are exactly "23:00 - 6:00" and "13:00 - 16:00" with their reasons, the first shown although the hour test never matches it |
| Scheduling.OnlyWednesdayMorningIsHigh | src/milestoner/scheduling.py:60 | a slot's priority is "high" exactly for Wednesday 10:00 |
| Scheduling.WednesdayMorningSaysPeak | src/milestoner/scheduling.py:13 | the lowered Wednesday 10:00 description contains "peak" |
| Scheduling.OtherReasonsHaveNoP | src/milestoner/scheduling.py:9-21 | no other description contains the letter p in either case |
| Scheduling.NoP | src/milestoner/scheduling.py:77 | text without the letter "p" does not contain "peak" |
| Scheduling.DaysUntilWednesday | src/milestoner/scheduling.py:82-86 | at most 7 days, landing on a Wednesday, 7 exactly on Wednesday from 10:00 on; the smallest offset whose Wednesday 10:00 has not passed |
| Scheduling.GetOptimalTimes | src/milestoner/scheduling.py:36-104 | recommendations are the first five of the upcoming list (1 to 5 of them), with the current rating, next Wednesday 10:00 and the avoid notes |
| Scheduling.RemainingToday | src/milestoner/scheduling.py:48-62 | the first loop yields one "today" entry per slot later than now, in table order |
| Scheduling.AddWholeDay | src/milestoner/scheduling.py:64-79 | the second loop appends one "tomorrow" entry per slot of the next weekday, in order |
| Scheduling.SuggestionFor | src/milestoner/scheduling.py:154-173 | a known content type gets its own entry, any other the "casual" one |
| Scheduling.SuggestPostingTime | src/milestoner/scheduling.py:142-180 | echoes the content type, returns its suggestion (never without preferred times) and the advice for now: the current rating, the first five upcoming slots, next Wednesday 10:00 and the avoid notes |
| History.ParseSince | src/milestoner/git/history.py:33-57 | `parse_since` on integer seconds; its contract is in History.ParseSinceDuration, History.ParseSinceFallback and History.TwoWeeksAgo |
| History.TwoWeeksAgo | src/milestoner/git/history.py:33-52 | "  2 WEEKS " is lowered and trimmed, then read as two weeks before now |
| History.ParseSinceDuration | src/milestoner/git/history.py:33-52 | "N unit" or "N units" (day, week, month, hour) goes back exactly N units, a week being 7 days and a month 30 |
| History.ParseSinceFallback | src/milestoner/git/history.py:33-57 | not two tokens, a non-integer first token or an unknown unit all fall back to seven days; otherwise the cutoff is N units back |
| History.RStripPlural | src/milestoner/git/history.py:43 | stripping trailing "s" turns a unit or its plural back into the unit |
| History.SelectCommits | src/milestoner/git/history.py:79-96 | the choice of commit walk in `get_commits`; its contract is in History.SelectionCases, History.LastCount, History.LastFallback and History.LastAlone |
| History.SelectionCases | src/milestoner/git/history.py:79-92 | a non-empty range is "last N" iff it starts with "last " ignoring case, otherwise a range iff it contains "..", otherwise one commit |
| History.LastCount | src/milestoner/git/history.py:81-84 | "last N", with "last" in any case, selects the N newest commits |
| History.LastFallback | src/milestoner/git/history.py:81-86 | "last" followed by a token that is not an integer selects 10 commits |
| History.LastAlone | src/milestoner/git/history.py:81-86 | "last " with nothing after it selects 10 commits |
| History.LastBeatsRange | src/milestoner/git/history.py:81-88 | "Last 3..5" is a "last" request, not a range, and as "3..5" is no integer it selects 10 commits |
| History.DistinctDays | src/milestoner/git/history.py:119-127 | the dictionary keys: each day once, exactly the days that occur |
| History.GroupByDay | src/milestoner/git/history.py:119-127 | keys in first-appearance order, and each day's group is that day's commits in input order |
| History.GroupsAreByOwnDay | src/milestoner/git/history.py:122-126 | every commit is in its own day's group and in no other |
| History.GroupsPartition | src/milestoner/git/history.py:119-127 | the group sizes add up to the number of commits |
| History.FormatForDisplay | src/milestoner/git/history.py:130-142 | one entry per commit, in order: short hash, author, files and date kept; the message is its first line; the stats text reads back as the two counts |
| History.StatsText | src/milestoner/git/history.py:139 | `f"+{insertions}/-{deletions}"`; its contract is History.ParseStatsText |
| History.ParseStatsText | src/milestoner/git/history.py:139 | `+{insertions}/-{deletions}` determines both counts |
| History.FilesTouched | src/milestoner/git/history.py:156-161 | a path is in the set iff some commit lists it |
| History.TotalInsertions | src/milestoner/git/history.py:157-162 | the running sum of insertions; its contract is in History.TotalsConcat and History.GetActivitySummary |
| History.TotalDeletions | src/milestoner/git/history.py:158-163 | the running sum of deletions; its contract is in History.TotalsConcat and History.GetActivitySummary |
| History.TotalsConcat | src/milestoner/git/history.py:157-163 | the totals add up over consecutive runs of commits |
| History.SortedListing | src/milestoner/git/history.py:167 | `sorted(set)`: strictly ascending with exactly the set's elements |
| History.GetActivitySummary | src/milestoner/git/history.py:145-174 | the empty summary for no commits; otherwise the count, both totals, the sorted touched files, and the last and first commits' dates |
| History.FileListingUnique | src/milestoner/git/history.py:167 | the file list is the only strictly ascending listing of the touched files |
| ConfigStore.PlatformCredentials | src/milestoner/config/store.py:42-45 | `config.get("platforms", {}).get(platform)`; its contract is in ConfigStore.CredentialsAbsent and ConfigStore.CredentialsRoundTrip |
| ConfigStore.WithCredentials | src/milestoner/config/store.py:48-54 | the configuration after saving credentials; its contract is ConfigStore.CredentialsRoundTrip |
| ConfigStore.DefaultPlatform | src/milestoner/config/store.py:57-60 | `config.get("defaults", {}).get("platform", "bluesky")`; its contract is ConfigStore.DefaultIsBluesky |
| ConfigStore.WithDefaultPlatform | src/milestoner/config/store.py:63-69 | the configuration after setting the default; its contract is ConfigStore.DefaultPlatformRoundTrip |
| ConfigStore.PostHistory | src/milestoner/config/store.py:72-75 | `data.get("posts", [])`; its contract is in ConfigStore.MissingHistoryIsEmpty and ConfigStore.AppendKeepsHistory |
| ConfigStore.WithPost | src/milestoner/config/store.py:78-84 | the history document after appending; its contract is ConfigStore.AppendKeepsHistory |
| ConfigStore.CredentialsExamples | src/milestoner/config/store.py:42-60 | concrete documents: an empty "platforms" object gives no credentials, a stored platform its credentials, a non-object "platforms" an error, and an empty "defaults" object the default "bluesky" |
| ConfigStore.CredentialsAbsent | src/milestoner/config/store.py:42-45 | a missing "platforms" object or platform reads as absent |
| ConfigStore.CredentialsRoundTrip | src/milestoner/config/store.py:48-54 | saving fails iff "platforms" is not an object; then the platform reads back as saved and other platforms and keys are unchanged |
| ConfigStore.DefaultIsBluesky | src/milestoner/config/store.py:57-60 | the default platform is "bluesky" until one is set and the stored value once one is; it cannot be read when "defaults" is not an object |
| ConfigStore.DefaultPlatformRoundTrip | src/milestoner/config/store.py:63-69 | setting fails iff "defaults" is not an object; then the default reads back and other keys and defaults are unchanged |
| ConfigStore.AppendKeepsHistory | src/milestoner/config/store.py:78-84 | appending fails iff "posts" is not a list; then the history gains exactly the post at its end |
| ConfigStore.Store.ReadJson | src/milestoner/config/store.py:16-21 | a missing file reads as the empty document, an existing one as its contents |
| ConfigStore.Store.SavePlatformCredentials | src/milestoner/config/store.py:48-54 | only the configuration file changes, and the platform reads back as saved; the default platform and history are untouched |
| ConfigStore.Store.SetDefaultPlatform | src/milestoner/config/store.py:63-69 | only the configuration file changes, and the default reads back as set |
| ConfigStore.Store.AddPostToHistory | src/milestoner/config/store.py:78-84 | only the history file changes, and it gains exactly the post at its end |
| ConfigStore.MissingHistoryIsEmpty | src/milestoner/config/store.py:72-75 | a missing history file reads as an empty history |
| ScheduledPosts.CheckPlatform | src/milestoner/tools/schedule_post.py:40-59 | the platform step of `schedule_post`; its contract is in ScheduledPosts.PlatformAndLengthChecks and ScheduledPosts.DefaultPlatformUsed |
| ScheduledPosts.CheckTime | src/milestoner/tools/schedule_post.py:61-79 | the time step of `schedule_post`; its contract is in ScheduledPosts.TimeChecks and ScheduledPosts.ZuluSuffix |
| ScheduledPosts.FirstSlot | src/milestoner/tools/schedule_post.py:62-65 | the first recommended slot; its contract is ScheduledPosts.FirstSlotIsNext |
| ScheduledPosts.ScheduleDecision | src/milestoner/tools/schedule_post.py:40-98 | the checks in order, then the new record; its contract is ScheduledPosts.DecisionOrder |
| ScheduledPosts.PlatformExamples | src/milestoner/tools/schedule_post.py:46-51 | a given platform is used even when the default cannot be read, and "mastodon" is refused even for empty content; a configured default that is not a string is refused too |
| ScheduledPosts.ZuluSuffix | src/milestoner/tools/schedule_post.py:72-79 | a given time ending in "Z" (and holding no other "Z") is checked as the same text ending in "+00:00", and stored as given |
| ScheduledPosts.PlatformAndLengthChecks | src/milestoner/tools/schedule_post.py:46-59 | an unknown platform is refused first, then content over 300 characters; exactly 300 passes |
| ScheduledPosts.DefaultPlatformUsed | src/milestoner/tools/schedule_post.py:40-44 | without a platform, a readable configured default is used exactly as if it were given; "bluesky" is used when no default is set; an unreadable "defaults" entry is a configuration error |
| ScheduledPosts.TimeChecks | src/milestoner/tools/schedule_post.py:61-79 | the optimal slot is used when asked for or when no time is given; otherwise a given time is kept iff it is ISO text after the "Z" rewrite, else refused with that text |
| ScheduledPosts.FirstSlotIsNext | src/milestoner/tools/schedule_post.py:62-65 | the slot used is today's first remaining slot, else the next weekday's first slot |
| ScheduledPosts.DecisionOrder | src/milestoner/tools/schedule_post.py:22-98 | the first failing check decides, platform before time; success yields a new "scheduled" record with the given content and the checked platform and time |
| ScheduledPosts.FirstWithId | src/milestoner/tools/schedule_post.py:125-126 | the first record with the id: none before it has it, and it has it |
| ScheduledPosts.PostStore.Schedule | src/milestoner/tools/schedule_post.py:22-104 | returns the decision; on success exactly that record is appended, on failure the list is unchanged |
| ScheduledPosts.PostStore.ListScheduledPosts | src/milestoner/tools/schedule_post.py:107-117 | the pending records in order, their count, and the first three recommended slots |
| ScheduledPosts.PostStore.GetDuePosts | src/milestoner/tools/schedule_post.py:134-145 | exactly the scheduled records due at now, in order |
| ScheduledPosts.PostStore.Cancel | src/milestoner/tools/schedule_post.py:120-131 | reports whether the id exists, and cancels its first record only |
| ScheduledPosts.PostStore.MarkPosted | src/milestoner/tools/schedule_post.py:148-161 | reports whether the id exists, and marks its first record posted with time and URL |
| ScheduledPosts.FilterTwice | src/milestoner/tools/schedule_post.py:109-110 | filtering the visible list by status is one filter by both tests |
| ScheduledPosts.PendingAndDue | src/milestoner/tools/schedule_post.py:140-143 | pending means scheduled for now or later, due means scheduled for now or earlier |
| ScheduledPosts.PendingAndDueMeetAtNow | src/milestoner/tools/schedule_post.py:142 | a record is both pending and due iff it is scheduled for exactly now |
| ScheduledPosts.VisibleRecords | src/milestoner/tools/schedule_post.py:13-19 | visible means posted, or scheduled for now or later, whatever else |
| ScheduledPosts.PostStore.GetScheduledPosts | src/milestoner/tools/schedule_post.py:13-19 | the visible records, in order; its contract is ScheduledPosts.VisibleRecords |
| ScheduledPosts.CancelIn | src/milestoner/tools/schedule_post.py:120-131 | the records after cancelling; its contract is ScheduledPosts.CancelChangesOneRecord |
| ScheduledPosts.MarkPostedIn | src/milestoner/tools/schedule_post.py:148-161 | the records after marking one posted; its contract is ScheduledPosts.MarkPostedChangesOneRecord |
| ScheduledPosts.CancelChangesOneRecord | src/milestoner/tools/schedule_post.py:120-131 | only the first matching record changes, and only its status; an unknown id changes nothing |
| ScheduledPosts.MarkPostedChangesOneRecord | src/milestoner/tools/schedule_post.py:148-161 | only the first matching record changes: status, posted time and URL; an unknown id changes nothing |
| ScheduledPosts.UpdatesKeepIds | src/milestoner/tools/schedule_post.py:125-126 | neither update changes which record an id selects |
| ScheduledPosts.StatusesNotTerminal | src/milestoner/tools/schedule_post.py:120-161 | a posted record can be cancelled and a cancelled one posted; cancelling twice equals cancelling once |
| ScheduledPosts.CancelledIsNotDue | src/milestoner/tools/schedule_post.py:127-143 | a cancelled record is neither due nor pending |

## Left out

- Network access, authentication and posting (`platforms/bluesky.py`, `tools/post_update.py`) are not part of this model. The platform registry is reduced to its one name, "bluesky", and its 300-character limit (`platforms/registry.py:7-9`, `platforms/bluesky.py:21-22`).
- `server.py`, `tools/draft_update.py` and `tools/list_activity.py` are the MCP entry points that call the core. They are not part of this model.
- The GitPython walk (`get_repo`, `iter_commits`, `commit.stats`) is I/O. Every history operation takes the commits as a sequence, newest first, as the walk yields them. `get_commits` is modelled only as the choice of walk (`History.SelectCommits`).
- Time zones, daylight-saving shifts, `isoformat()` text and `datetime.fromisoformat` are not modelled. The ISO rendering and the ISO validity test are parameters, and ISO timestamps are compared as the code compares them, as strings. The two `strftime` formats the advisor uses are modelled: `%I:%M %p` by `Scheduling.ClockText` and `%A` by the `Scheduling.WeekdayNames` table.
- Scheduling.Upcoming: a recommended slot is "N days ahead at hh:mm". The model does not compute the calendar date that `now + timedelta(days=1)` gives.
- History.ParseSince: instants are integer seconds. The `OverflowError` that `timedelta` raises for huge amounts is not modelled, and the result is always the plain arithmetic value.
- Text.Lower: `lower()` is modelled for ASCII letters only. Other characters are left unchanged.
- Text.ParseInt: `int()` is modelled for ASCII digits, with an optional sign and single underscores between digits. Unicode digits are not accepted. CPython's limit on the length of integer text (by default, a `ValueError` above 4300 digits) is not modelled; `parse_since` and `get_commits` would catch that error and fall back as they do for any other non-integer.
- ConfigStore.Store: file permissions (`mkdir` mode 0o700, `chmod` 0o600) and a JSON file whose top level is not an object are not modelled. Neither is a failed write.
- ConfigStore.Store.SavePlatformCredentials, SetDefaultPlatform and AddPostToHistory: when a container has the wrong JSON type, Python raises and nothing is written. The model returns `Failure(WrongType(key))` with the files unchanged. It does not distinguish the exception types.
- ScheduledPosts.PostStore: the records are typed. Hand-edited records with missing keys, where the code falls back to `""` or `None` through `.get`, are not modelled, and neither are unknown statuses. Reading and writing `scheduled-posts.json` is the `posts` field. A "posts" entry that is not a list is not modelled.
- ScheduledPosts.PostStore.Schedule: the post id and `created_at` come from the clock and are parameters. The "No optimal times available" branch cannot be taken, because the recommendation list is never empty (`Scheduling.UpcomingNonEmpty`), so the model has no such error.
- ConfigStore.Store.GetPlatformCredentials, GetDefaultPlatform and GetPostHistory are the getters over the stored documents. Their properties are the lemmas on `PlatformCredentials`, `DefaultPlatform` and `PostHistory`.
