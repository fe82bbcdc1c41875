/** The scheduled-post store (`tools/schedule_post.py`): the list under "posts"
    in `scheduled-posts.json`, which scheduling appends to and cancelling or
    marking as posted changes in place, and the filters that read it.

    The store is a class holding the list. Timestamps are ISO texts and, as in
    the code, are compared as strings. The clock, the post id taken from it,
    the validity test of `datetime.fromisoformat` and the `isoformat()`
    rendering of a recommended slot are parameters. */
module ScheduledPosts {
  import opened Common
  import opened Text
  import opened Scheduling
  import ConfigStore

  datatype Status = Scheduled | Cancelled | Posted

  /** One stored record. `postedAt` and `url` are absent until the post is
      marked as posted. */
  datatype Post = Post(
    id: string, content: string, platform: string, scheduledFor: string,
    createdAt: string, status: Status, postedAt: Option<string>, url: Option<string>)

  /** The platform registry reduced to each platform's character limit. */
  const CharacterLimits: map<string, nat> := map["bluesky" := 300]

  datatype ScheduleError =
    | ConfigError(key: string)
    | UnknownPlatform(name: ConfigStore.Json)
    | ContentTooLong(limit: nat)
    | InvalidDatetime(text: string)

  // ---------------------------------------------------------------------------
  // schedule_post
  // ---------------------------------------------------------------------------

  /** The platform and length checks of `schedule_post`: the platform given,
      or else the configured default, must be a known platform name, and the
      content no longer than that platform's limit. */
  function CheckPlatform(
    defaultPlatform: Result<ConfigStore.Json, ConfigStore.StoreError>, platform: Option<string>,
    content: string
  ): Result<string, ScheduleError>
  {
    var chosen := if platform.Some? then Success(ConfigStore.JStr(platform.value)) else defaultPlatform;
    match chosen
    case Failure(e) => Failure(ConfigError(e.key))
    case Success(name) =>
      if !(name.JStr? && name.s in CharacterLimits) then Failure(UnknownPlatform(name))
      else if |content| > CharacterLimits[name.s] then Failure(ContentTooLong(CharacterLimits[name.s]))
      else Success(name.s)
  }

  /** The time check of `schedule_post`: the rendered `optimal` slot when the
      optimal time is asked for or no time is given; otherwise the given time,
      which must be ISO text once every "Z" is read as "+00:00". */
  function CheckTime(
    scheduledFor: Option<string>, useOptimalTime: bool, optimal: Target,
    isIso: string -> bool, isoformat: Target -> string
  ): Result<string, ScheduleError>
  {
    if useOptimalTime || scheduledFor.None? then Success(isoformat(optimal))
    else if !isIso(ReplaceChar(scheduledFor.value, 'Z', "+00:00")) then Failure(InvalidDatetime(scheduledFor.value))
    else Success(scheduledFor.value)
  }

  /** The first slot `get_optimal_times` recommends at `now`. */
  function FirstSlot(now: Clock): Target
  {
    UpcomingNonEmpty(now);
    Upcoming(now)[0].at
  }

  /** What `schedule_post` decides: the platform checks, then the time check
      against the first recommended slot, then the record to append. */
  function ScheduleDecision(
    defaultPlatform: Result<ConfigStore.Json, ConfigStore.StoreError>, content: string,
    scheduledFor: Option<string>, platform: Option<string>, useOptimalTime: bool, now: Clock,
    id: string, createdAt: string, isIso: string -> bool, isoformat: Target -> string
  ): Result<Post, ScheduleError>
  {
    match CheckPlatform(defaultPlatform, platform, content)
    case Failure(e) => Failure(e)
    case Success(name) =>
      match CheckTime(scheduledFor, useOptimalTime, FirstSlot(now), isIso, isoformat)
      case Failure(e) => Failure(e)
      case Success(time) => Success(Post(id, content, name, time, createdAt, Scheduled, None, None))
  }

  /** An unknown platform is refused first, then content over the limit;
      content of exactly the limit is accepted. */
  lemma PlatformAndLengthChecks(
    defaultPlatform: Result<ConfigStore.Json, ConfigStore.StoreError>, platform: string, content: string)
    ensures var r := CheckPlatform(defaultPlatform, Some(platform), content);
      && (platform != "bluesky" ==> r == Failure(UnknownPlatform(ConfigStore.JStr(platform))))
      && (platform == "bluesky" && |content| > 300 ==> r == Failure(ContentTooLong(300)))
      && (platform == "bluesky" && |content| <= 300 ==> r == Success("bluesky"))
  {
  }

  /** Without an explicit platform the configured default is used exactly as
      if it had been given: "bluesky" when none is configured, including an
      empty "defaults" object. A "defaults" entry that cannot be read fails
      with a configuration error. */
  lemma DefaultPlatformUsed(config: map<string, ConfigStore.Json>, content: string, p: string)
    ensures ConfigStore.DefaultPlatform(config) == Success(ConfigStore.JStr(p)) ==>
      CheckPlatform(ConfigStore.DefaultPlatform(config), None, content)
      == CheckPlatform(ConfigStore.DefaultPlatform(config), Some(p), content)
    ensures "defaults" !in config
            || (config["defaults"].JObj? && "platform" !in config["defaults"].fields) ==>
      CheckPlatform(ConfigStore.DefaultPlatform(config), None, content)
      == CheckPlatform(ConfigStore.DefaultPlatform(config), Some("bluesky"), content)
    ensures "defaults" in config && !config["defaults"].JObj? ==>
      CheckPlatform(ConfigStore.DefaultPlatform(config), None, content) == Failure(ConfigError("defaults"))
  {
    ConfigStore.DefaultIsBluesky(config);
  }

  /** Concrete cases: a platform other than "bluesky" is refused even for
      empty content, as is a configured default that is not a string. */
  lemma PlatformExamples()
    ensures CheckPlatform(Failure(ConfigStore.WrongType("defaults")), Some("mastodon"), "")
            == Failure(UnknownPlatform(ConfigStore.JStr("mastodon")))
    ensures CheckPlatform(Success(ConfigStore.JNum(3)), None, "") == Failure(UnknownPlatform(ConfigStore.JNum(3)))
  {
  }

  /** A given time ending in "Z" (and holding no other "Z") is checked as the
      same text ending in "+00:00", and is stored as given. */
  lemma ZuluSuffix(t: string, useOptimalTime: bool, optimal: Target, isIso: string -> bool, isoformat: Target -> string)
    requires 'Z' !in t
    ensures !useOptimalTime ==>
      (CheckTime(Some(t + "Z"), useOptimalTime, optimal, isIso, isoformat).Success? <==> isIso(t + "+00:00"))
    ensures !useOptimalTime && isIso(t + "+00:00") ==>
      CheckTime(Some(t + "Z"), useOptimalTime, optimal, isIso, isoformat) == Success(t + "Z")
  {
    ReplaceCharConcat(t, "Z", 'Z', "+00:00");
    ReplaceCharSingle('Z', 'Z', "+00:00");
  }

  /** When the optimal time is asked for, or no time is given, the slot is
      used whatever time was given; otherwise a given time is kept verbatim
      when it is ISO text and refused when it is not. */
  lemma TimeChecks(
    scheduledFor: Option<string>, useOptimalTime: bool, optimal: Target,
    isIso: string -> bool, isoformat: Target -> string)
    ensures var r := CheckTime(scheduledFor, useOptimalTime, optimal, isIso, isoformat);
      && (useOptimalTime || scheduledFor.None? ==> r == Success(isoformat(optimal)))
      && (!useOptimalTime && scheduledFor.Some? ==>
            (r.Success? <==> isIso(ReplaceChar(scheduledFor.value, 'Z', "+00:00"))))
      && (!useOptimalTime && scheduledFor.Some? && r.Success? ==> r.value == scheduledFor.value)
      && (r.Failure? ==> r.error == InvalidDatetime(scheduledFor.value))
  {
  }

  /** The slot used is the first of today's remaining slots if one is left,
      else the first slot of the next weekday. */
  lemma FirstSlotIsNext(now: Clock)
    ensures var today := Filter(OptimalTimes(now.weekday), LaterThan(now));
      && (today != [] ==> FirstSlot(now) == Target(0, now.weekday, today[0].hour, today[0].minute))
      && (today == [] ==> FirstSlot(now) == Target(1, NextDay(now.weekday),
                                                   OptimalTimes(NextDay(now.weekday))[0].hour,
                                                   OptimalTimes(NextDay(now.weekday))[0].minute))
  {
    UpcomingNonEmpty(now);
  }

  /** The decision fails with the first failing check, platform before time;
      on success the record is a new "scheduled" one, not yet posted, with the
      given id, content and creation time, the checked platform and time. */
  lemma DecisionOrder(
    defaultPlatform: Result<ConfigStore.Json, ConfigStore.StoreError>, content: string,
    scheduledFor: Option<string>, platform: Option<string>, useOptimalTime: bool, now: Clock,
    id: string, createdAt: string, isIso: string -> bool, isoformat: Target -> string)
    ensures var r := ScheduleDecision(defaultPlatform, content, scheduledFor, platform,
                                      useOptimalTime, now, id, createdAt, isIso, isoformat);
      var p := CheckPlatform(defaultPlatform, platform, content);
      var t := CheckTime(scheduledFor, useOptimalTime, FirstSlot(now), isIso, isoformat);
      && (p.Failure? ==> r == Failure(p.error))
      && (p.Success? && t.Failure? ==> r == Failure(t.error))
      && (r.Success? <==> p.Success? && t.Success?)
      && (r.Success? ==>
            r.value == Post(id, content, p.value, t.value, createdAt, Scheduled, None, None))
  {
  }

  // ---------------------------------------------------------------------------
  // Reading the store: get_scheduled_posts, list_scheduled_posts, get_due_posts
  // ---------------------------------------------------------------------------

  /** Kept by `get_scheduled_posts`: scheduled for now or later, or posted. */
  predicate Visible(p: Post, now: string)
  {
    StrLe(now, p.scheduledFor) || p.status == Posted
  }

  function VisibleAt(now: string): Post -> bool
  {
    (p: Post) => Visible(p, now)
  }

  predicate IsScheduled(p: Post)
  {
    p.status == Scheduled
  }

  function ScheduledOnly(): Post -> bool
  {
    (p: Post) => IsScheduled(p)
  }

  /** Pending in `list_scheduled_posts`: still scheduled, for now or later. */
  function PendingAt(now: string): Post -> bool
  {
    (p: Post) => p.status == Scheduled && StrLe(now, p.scheduledFor)
  }

  /** Due in `get_due_posts`: still scheduled, for now or earlier. */
  predicate Due(p: Post, now: string)
  {
    p.status == Scheduled && StrLe(p.scheduledFor, now)
  }

  function DueAt(now: string): Post -> bool
  {
    (p: Post) => Due(p, now)
  }

  /** What `list_scheduled_posts` returns. */
  datatype Listing = Listing(pending: seq<Post>, count: nat, nextOptimalTimes: seq<Recommendation>)

  /** The index of the first record with `id`; `|posts|` if there is none. */
  function FirstWithId(posts: seq<Post>, id: string): (k: nat)
    ensures k <= |posts|
    ensures forall j :: 0 <= j < k ==> posts[j].id != id
    ensures k < |posts| ==> posts[k].id == id
    decreases |posts|
  {
    if posts == [] || posts[0].id == id then 0 else 1 + FirstWithId(posts[1..], id)
  }

  /** The list after `cancel_scheduled_post(id)`. */
  function CancelIn(posts: seq<Post>, id: string): seq<Post>
  {
    var k := FirstWithId(posts, id);
    if k < |posts| then posts[k := posts[k].(status := Cancelled)] else posts
  }

  /** The list after `mark_post_as_posted(id, url)` at `postedAt`. */
  function MarkPostedIn(posts: seq<Post>, id: string, url: string, postedAt: string): seq<Post>
  {
    var k := FirstWithId(posts, id);
    if k < |posts| then posts[k := posts[k].(status := Posted, postedAt := Some(postedAt), url := Some(url))]
    else posts
  }

  class PostStore {
    var posts: seq<Post>

    constructor(initial: seq<Post>)
      ensures posts == initial
    {
      posts := initial;
    }

    /** `get_scheduled_posts`, with `now` the current time as ISO text. */
    function GetScheduledPosts(now: string): seq<Post>
      reads this
    {
      Filter(posts, VisibleAt(now))
    }

    /** `schedule_post`: on success exactly one record, the one returned, is
        appended; on failure the store is unchanged. */
    method Schedule(
      config: ConfigStore.Store, content: string, scheduledFor: Option<string>, platform: Option<string>,
      useOptimalTime: bool, now: Clock, id: string, createdAt: string,
      isIso: string -> bool, isoformat: Target -> string)
      returns (r: Result<Post, ScheduleError>)
      modifies this
      ensures r == ScheduleDecision(config.GetDefaultPlatform(), content, scheduledFor, platform,
                                    useOptimalTime, now, id, createdAt, isIso, isoformat)
      ensures r.Success? ==> posts == old(posts) + [r.value]
      ensures r.Failure? ==> posts == old(posts)
    {
      var name: ConfigStore.Json;
      if platform.None? {
        var configured := config.GetDefaultPlatform();
        if configured.Failure? {
          return Failure(ConfigError(configured.error.key));
        }
        name := configured.value;
      } else {
        name := ConfigStore.JStr(platform.value);
      }

      if !(name.JStr? && name.s in CharacterLimits) {
        return Failure(UnknownPlatform(name));
      }
      var limit := CharacterLimits[name.s];
      if |content| > limit {
        return Failure(ContentTooLong(limit));
      }

      var time: string;
      if useOptimalTime || scheduledFor.None? {
        var optimal := GetOptimalTimes(now);
        time := isoformat(optimal.recommendations[0].at);
      } else {
        if !isIso(ReplaceChar(scheduledFor.value, 'Z', "+00:00")) {
          return Failure(InvalidDatetime(scheduledFor.value));
        }
        time := scheduledFor.value;
      }

      var post := Post(id, content, name.s, time, createdAt, Scheduled, None, None);
      posts := posts + [post];
      r := Success(post);
    }

    /** `list_scheduled_posts`: the pending records in store order, their
        number, and the first three upcoming recommended slots. */
    method ListScheduledPosts(now: string, clock: Clock) returns (listing: Listing)
      ensures listing.pending == Filter(posts, PendingAt(now))
      ensures listing.count == |listing.pending|
      ensures listing.nextOptimalTimes == Upcoming(clock)[..Min(3, |Upcoming(clock)|)]
    {
      var visible := GetScheduledPosts(now);
      var pending := Filter(visible, ScheduledOnly());
      FilterTwice(posts, VisibleAt(now), ScheduledOnly(), PendingAt(now));
      var optimal := GetOptimalTimes(clock);
      listing := Listing(pending, |pending|, optimal.recommendations[..Min(3, |optimal.recommendations|)]);
    }

    /** `get_due_posts`: the records due at `now`, in store order. */
    method GetDuePosts(now: string) returns (due: seq<Post>)
      ensures due == Filter(posts, DueAt(now))
    {
      due := [];
      for i := 0 to |posts|
        invariant due == Filter(posts[..i], DueAt(now))
      {
        assert posts[..i + 1] == posts[..i] + [posts[i]];
        FilterSnoc(posts[..i], posts[i], DueAt(now));
        if posts[i].status == Scheduled && StrLe(posts[i].scheduledFor, now) {
          due := due + [posts[i]];
        }
      }
      assert posts[..|posts|] == posts;
    }

    /** `cancel_scheduled_post`: the first record with `id` becomes
        "cancelled", whatever its status was; reports whether there was one. */
    method Cancel(id: string) returns (found: bool)
      modifies this
      ensures found <==> FirstWithId(old(posts), id) < |old(posts)|
      ensures posts == CancelIn(old(posts), id)
    {
      var i := 0;
      while i < |posts|
        invariant 0 <= i <= |posts|
        invariant forall j :: 0 <= j < i ==> posts[j].id != id
        invariant posts == old(posts)
      {
        if posts[i].id == id {
          assert FirstWithId(posts, id) == i;
          posts := posts[i := posts[i].(status := Cancelled)];
          return true;
        }
        i := i + 1;
      }
      return false;
    }

    /** `mark_post_as_posted`: the first record with `id` becomes "posted",
        with the time and URL recorded, whatever its status was; reports
        whether there was one. */
    method MarkPosted(id: string, url: string, postedAt: string) returns (found: bool)
      modifies this
      ensures found <==> FirstWithId(old(posts), id) < |old(posts)|
      ensures posts == MarkPostedIn(old(posts), id, url, postedAt)
    {
      var i := 0;
      while i < |posts|
        invariant 0 <= i <= |posts|
        invariant forall j :: 0 <= j < i ==> posts[j].id != id
        invariant posts == old(posts)
      {
        if posts[i].id == id {
          assert FirstWithId(posts, id) == i;
          posts := posts[i := posts[i].(status := Posted, postedAt := Some(postedAt), url := Some(url))];
          return true;
        }
        i := i + 1;
      }
      return false;
    }
  }

  /** Filtering twice is filtering once by both tests. */
  lemma {:induction false} FilterTwice<T>(s: seq<T>, first: T -> bool, second: T -> bool, both: T -> bool)
    requires forall x :: both(x) == (first(x) && second(x))
    ensures Filter(Filter(s, first), second) == Filter(s, both)
    decreases |s|
  {
    if s != [] {
      var p := s[..|s| - 1];
      var x := s[|s| - 1];
      FilterTwice(p, first, second, both);
      assert s == p + [x];
      FilterSnoc(p, x, first);
      FilterSnoc(p, x, both);
      FilterSnoc(Filter(p, first), x, second);
      assert both(x) == (first(x) && second(x));
      if first(x) {
        assert Filter(s, first) == Filter(p, first) + [x];
      } else {
        assert Filter(s, first) == Filter(p, first);
      }
    }
  }

  // ---------------------------------------------------------------------------
  // Properties of the filters
  // ---------------------------------------------------------------------------

  /** Pending records are exactly the scheduled ones due now or later, and due
      records exactly the scheduled ones due now or earlier. */
  lemma PendingAndDue(posts: seq<Post>, now: string, p: Post)
    ensures p in Filter(posts, PendingAt(now)) <==>
              p in posts && p.status == Scheduled && StrLe(now, p.scheduledFor)
    ensures p in Filter(posts, DueAt(now)) <==>
              p in posts && p.status == Scheduled && StrLe(p.scheduledFor, now)
  {
    FilterMembership(posts, PendingAt(now), p);
    FilterMembership(posts, DueAt(now), p);
  }

  /** A record is both pending and due only when it is scheduled for exactly
      `now`: string order is antisymmetric. */
  lemma PendingAndDueMeetAtNow(posts: seq<Post>, now: string, p: Post)
    ensures p in Filter(posts, PendingAt(now)) && p in Filter(posts, DueAt(now))
            <==> p in posts && p.status == Scheduled && p.scheduledFor == now
  {
    PendingAndDue(posts, now, p);
    StrLtAsymmetric(now, p.scheduledFor);
  }

  /** `get_scheduled_posts` also keeps posted records whose time has passed,
      and drops cancelled and scheduled ones whose time has passed. */
  lemma VisibleRecords(posts: seq<Post>, now: string, p: Post)
    ensures p in Filter(posts, VisibleAt(now)) <==>
              p in posts && (p.status == Posted || StrLe(now, p.scheduledFor))
  {
    FilterMembership(posts, VisibleAt(now), p);
  }

  /** Cancelling changes the status of the first record with the id and
      nothing else; an unknown id changes nothing. */
  lemma CancelChangesOneRecord(posts: seq<Post>, id: string, j: nat)
    requires j < |posts|
    ensures |CancelIn(posts, id)| == |posts|
    ensures FirstWithId(posts, id) == |posts| ==> CancelIn(posts, id) == posts
    ensures j != FirstWithId(posts, id) ==> CancelIn(posts, id)[j] == posts[j]
    ensures j == FirstWithId(posts, id) ==> CancelIn(posts, id)[j] == posts[j].(status := Cancelled)
  {
  }

  /** Marking as posted changes the status, time and URL of the first record
      with the id and nothing else; an unknown id changes nothing. */
  lemma MarkPostedChangesOneRecord(posts: seq<Post>, id: string, url: string, postedAt: string, j: nat)
    requires j < |posts|
    ensures |MarkPostedIn(posts, id, url, postedAt)| == |posts|
    ensures FirstWithId(posts, id) == |posts| ==> MarkPostedIn(posts, id, url, postedAt) == posts
    ensures j != FirstWithId(posts, id) ==> MarkPostedIn(posts, id, url, postedAt)[j] == posts[j]
    ensures j == FirstWithId(posts, id) ==>
      MarkPostedIn(posts, id, url, postedAt)[j]
      == posts[j].(status := Posted, postedAt := Some(postedAt), url := Some(url))
  {
  }

  /** Neither update changes which record an id selects. */
  lemma UpdatesKeepIds(posts: seq<Post>, id: string, other: string, url: string, postedAt: string)
    ensures FirstWithId(CancelIn(posts, id), other) == FirstWithId(posts, other)
    ensures FirstWithId(MarkPostedIn(posts, id, url, postedAt), other) == FirstWithId(posts, other)
  {
    var k := FirstWithId(posts, id);
    if k < |posts| {
      SameIdsSameFirst(posts, CancelIn(posts, id), other);
      SameIdsSameFirst(posts, MarkPostedIn(posts, id, url, postedAt), other);
    }
  }

  lemma {:induction false} SameIdsSameFirst(a: seq<Post>, b: seq<Post>, id: string)
    requires |a| == |b|
    requires forall j :: 0 <= j < |a| ==> a[j].id == b[j].id
    ensures FirstWithId(a, id) == FirstWithId(b, id)
    decreases |a|
  {
    if a != [] && a[0].id != id {
      SameIdsSameFirst(a[1..], b[1..], id);
    }
  }

  /** Statuses are not terminal: a posted record can be cancelled, a
      cancelled one marked as posted, and cancelling twice is the same as
      cancelling once. */
  lemma StatusesNotTerminal(posts: seq<Post>, id: string, url: string, postedAt: string)
    requires FirstWithId(posts, id) < |posts|
    ensures var k := FirstWithId(posts, id);
      && CancelIn(MarkPostedIn(posts, id, url, postedAt), id)[k].status == Cancelled
      && MarkPostedIn(CancelIn(posts, id), id, url, postedAt)[k].status == Posted
      && CancelIn(CancelIn(posts, id), id) == CancelIn(posts, id)
  {
    UpdatesKeepIds(posts, id, id, url, postedAt);
  }

  /** A cancelled record is never due and never pending. */
  lemma CancelledIsNotDue(posts: seq<Post>, id: string, now: string)
    requires FirstWithId(posts, id) < |posts|
    ensures var cancelled := CancelIn(posts, id)[FirstWithId(posts, id)];
      !DueAt(now)(cancelled) && !PendingAt(now)(cancelled)
  {
  }
}
