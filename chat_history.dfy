/**
 * The session sidebar: search over the session list and the four
 * relative-date sections it is shown in. The clock is the explicit `now`.
 */
module ChatHistory {
  import opened Wrappers
  import opened Text
  import opened Sequences

  // ---------------------------------------------------------------------------
  // Time
  // ---------------------------------------------------------------------------

  const MinutesPerDay: int := 1440

  type MinuteOfDay = m: int | 0 <= m < 1440

  /** A local date-time: a calendar day number and the minute within that day. */
  datatype Timestamp = Timestamp(day: int, minute: MinuteOfDay)

  /** The position of `t` on the time line, in minutes; `Date` comparison compares these. */
  function Instant(t: Timestamp): (m: int) {
    t.day * MinutesPerDay + t.minute
  }

  /** `d.setDate(d.getDate() - k)` on a fresh `new Date()`: `k` days back, same time of day. */
  function DaysBefore(now: Timestamp, k: int): (t: Timestamp)
    ensures Instant(t) == Instant(now) - k * MinutesPerDay
  {
    Timestamp(now.day - k, now.minute)
  }

  /** Instants are ordered by day first, then by minute. */
  lemma InstantOrder(a: Timestamp, b: Timestamp)
    ensures Instant(a) < Instant(b) <==> a.day < b.day || (a.day == b.day && a.minute < b.minute)
  {
  }

  /** `isToday`: the same calendar date as now. */
  predicate IsToday(now: Timestamp, t: Timestamp) {
    t.day == now.day
  }

  /** `isYesterday`: the same calendar date as one day before now. */
  predicate IsYesterday(now: Timestamp, t: Timestamp) {
    t.day == DaysBefore(now, 1).day
  }

  /** `isLastWeek`: strictly after seven days ago and strictly before one day ago, to the minute. */
  predicate IsLastWeek(now: Timestamp, t: Timestamp) {
    Instant(DaysBefore(now, 7)) < Instant(t) < Instant(DaysBefore(now, 1))
  }

  /** The condition of the `older` section: none of the other three. */
  predicate IsOlder(now: Timestamp, t: Timestamp) {
    !IsToday(now, t) && !IsYesterday(now, t) && !IsLastWeek(now, t)
  }

  /** `isLastWeek` in calendar terms: the five whole days between, plus part of each end day. */
  lemma LastWeekByDay(now: Timestamp, t: Timestamp)
    ensures IsLastWeek(now, t) <==>
      (now.day - 7 < t.day < now.day - 1)
      || (t.day == now.day - 7 && t.minute > now.minute)
      || (t.day == now.day - 1 && t.minute < now.minute)
  {
    InstantOrder(DaysBefore(now, 7), t);
    InstantOrder(t, DaysBefore(now, 1));
  }

  /** Both ends of `isLastWeek` are excluded. */
  lemma LastWeekStrictBounds(now: Timestamp)
    ensures !IsLastWeek(now, DaysBefore(now, 7))
    ensures !IsLastWeek(now, DaysBefore(now, 1))
  {
  }

  /** Nothing of today's date is in the last week: `t < now - 1 day` is on an earlier date. */
  lemma TodayNotLastWeek(now: Timestamp, t: Timestamp)
    ensures IsToday(now, t) ==> !IsLastWeek(now, t) && !IsYesterday(now, t)
  {
    LastWeekByDay(now, t);
  }

  /**
   * The one overlap: a time on yesterday's date is in the last week as well exactly
   * when its time of day is earlier than now's.
   */
  lemma YesterdayAndLastWeek(now: Timestamp, t: Timestamp)
    ensures IsYesterday(now, t) && IsLastWeek(now, t) <==> t.day == now.day - 1 && t.minute < now.minute
  {
    LastWeekByDay(now, t);
  }

  /** Where a time falls, by how many calendar days it lies before now. */
  lemma RelativeDays(now: Timestamp, t: Timestamp)
    ensures t.day == now.day ==> IsToday(now, t) && !IsYesterday(now, t) && !IsLastWeek(now, t)
    ensures t.day == now.day - 1 && t.minute >= now.minute ==>
      IsYesterday(now, t) && !IsToday(now, t) && !IsLastWeek(now, t)
    ensures now.day - 7 < t.day < now.day - 1 ==>
      IsLastWeek(now, t) && !IsToday(now, t) && !IsYesterday(now, t)
    ensures t.day == now.day - 7 ==> (IsLastWeek(now, t) <==> t.minute > now.minute)
    ensures t.day < now.day - 7 || t.day > now.day || t == DaysBefore(now, 7) ==> IsOlder(now, t)
  {
    LastWeekByDay(now, t);
  }

  // ---------------------------------------------------------------------------
  // Sessions and search
  // ---------------------------------------------------------------------------

  datatype ChatSession = ChatSession(
    id: string,
    title: string,
    timestamp: Timestamp,
    preview: string,
    isStarred: bool,
    messageCount: nat)

  /** The search condition: the lower-cased query occurs in the lower-cased title or preview. */
  predicate Matches(session: ChatSession, query: string) {
    Includes(Lower(session.title), Lower(query)) || Includes(Lower(session.preview), Lower(query))
  }

  /** `filteredSessions`: the sessions the search keeps, in their order. */
  function FilterSessions(sessions: seq<ChatSession>, query: string): (r: seq<ChatSession>) {
    Select(sessions, (s: ChatSession) => Matches(s, query))
  }

  /**
   * A session is kept exactly when it is in the list and the lower-cased query
   * occurs in its lower-cased title or preview.
   */
  lemma FilterKeepsIff(sessions: seq<ChatSession>, query: string, s: ChatSession)
    ensures s in FilterSessions(sessions, query) <==>
      s in sessions && (OccursIn(Lower(query), Lower(s.title)) || OccursIn(Lower(query), Lower(s.preview)))
  {
    IncludesIff(Lower(s.title), Lower(query));
    IncludesIff(Lower(s.preview), Lower(query));
  }

  /** Queries that differ only in letter case select the same sessions. */
  lemma FilterCaseInsensitive(sessions: seq<ChatSession>, q1: string, q2: string)
    requires Lower(q1) == Lower(q2)
    ensures FilterSessions(sessions, q1) == FilterSessions(sessions, q2)
  {
    SelectCongruent(sessions, (s: ChatSession) => Matches(s, q1), (s: ChatSession) => Matches(s, q2));
  }

  /** Searching for a lower-cased query is the same search. */
  lemma FilterLowerQuery(sessions: seq<ChatSession>, query: string)
    ensures FilterSessions(sessions, Lower(query)) == FilterSessions(sessions, query)
  {
    LowerIdempotent(query);
    FilterCaseInsensitive(sessions, Lower(query), query);
  }

  /** The empty query keeps every session. */
  lemma EmptyQueryKeepsAll(sessions: seq<ChatSession>)
    ensures FilterSessions(sessions, "") == sessions
  {
    forall s | s in sessions ensures Matches(s, "") {
      IncludesEmpty(Lower(s.title));
    }
    SelectAll(sessions, (s: ChatSession) => Matches(s, ""));
  }

  // ---------------------------------------------------------------------------
  // Date sections
  // ---------------------------------------------------------------------------

  datatype Groups = Groups(
    today: seq<ChatSession>,
    yesterday: seq<ChatSession>,
    lastWeek: seq<ChatSession>,
    older: seq<ChatSession>)

  /** `groupedSessions`: each section filters the searched list with its own date test. */
  function GroupByDate(filtered: seq<ChatSession>, now: Timestamp): (g: Groups) {
    Groups(
      Select(filtered, (s: ChatSession) => IsToday(now, s.timestamp)),
      Select(filtered, (s: ChatSession) => IsYesterday(now, s.timestamp)),
      Select(filtered, (s: ChatSession) => IsLastWeek(now, s.timestamp)),
      Select(filtered, (s: ChatSession) => IsOlder(now, s.timestamp)))
  }

  /** Each section holds exactly the searched sessions that pass its date test. */
  lemma SectionMembership(filtered: seq<ChatSession>, now: Timestamp, s: ChatSession)
    ensures var g := GroupByDate(filtered, now);
      (s in g.today <==> s in filtered && IsToday(now, s.timestamp))
      && (s in g.yesterday <==> s in filtered && IsYesterday(now, s.timestamp))
      && (s in g.lastWeek <==> s in filtered && IsLastWeek(now, s.timestamp))
      && (s in g.older <==> s in filtered && IsOlder(now, s.timestamp))
  {
  }

  /** The sessions listed under both "Yesterday" and "Last 7 days". */
  function Overlap(filtered: seq<ChatSession>, now: Timestamp): (r: seq<ChatSession>) {
    Select(filtered, (s: ChatSession) => IsYesterday(now, s.timestamp) && IsLastWeek(now, s.timestamp))
  }

  /** Every section keeps the order of the searched list, which keeps the order of all sessions. */
  lemma SectionsAreSubsequences(sessions: seq<ChatSession>, query: string, now: Timestamp)
    ensures var filtered := FilterSessions(sessions, query);
      var g := GroupByDate(filtered, now);
      IsSubsequence(filtered, sessions)
      && IsSubsequence(g.today, sessions) && IsSubsequence(g.yesterday, sessions)
      && IsSubsequence(g.lastWeek, sessions) && IsSubsequence(g.older, sessions)
  {
    var filtered := FilterSessions(sessions, query);
    var g := GroupByDate(filtered, now);
    SubsequenceTransitive(g.today, filtered, sessions);
    SubsequenceTransitive(g.yesterday, filtered, sessions);
    SubsequenceTransitive(g.lastWeek, filtered, sessions);
    SubsequenceTransitive(g.older, filtered, sessions);
  }

  /** "Older" holds exactly the searched sessions shown in no other section; so every one is shown. */
  lemma OlderIsTheRest(filtered: seq<ChatSession>, now: Timestamp, s: ChatSession)
    ensures var g := GroupByDate(filtered, now);
      s in g.older <==> s in filtered && s !in g.today && s !in g.yesterday && s !in g.lastWeek
    ensures var g := GroupByDate(filtered, now);
      s in filtered ==> s in g.today || s in g.yesterday || s in g.lastWeek || s in g.older
  {
    SectionMembership(filtered, now, s);
  }

  /** "Today" shares no session with another section, nor "Older"; only yesterday and last week meet. */
  lemma SectionsMeetOnlyInOverlap(filtered: seq<ChatSession>, now: Timestamp, s: ChatSession)
    ensures var g := GroupByDate(filtered, now);
      !(s in g.today && s in g.yesterday) && !(s in g.today && s in g.lastWeek)
      && !(s in g.older && (s in g.today || s in g.yesterday || s in g.lastWeek))
    ensures var g := GroupByDate(filtered, now);
      s in g.yesterday && s in g.lastWeek <==>
        s in filtered && s.timestamp.day == now.day - 1 && s.timestamp.minute < now.minute
  {
    SectionMembership(filtered, now, s);
    TodayNotLastWeek(now, s.timestamp);
    YesterdayAndLastWeek(now, s.timestamp);
  }

  /** The sections list every searched session once, and the overlap a second time. */
  lemma {:induction false} SectionSizes(filtered: seq<ChatSession>, now: Timestamp)
    ensures var g := GroupByDate(filtered, now);
      |g.today| + |g.yesterday| + |g.lastWeek| + |g.older| == |filtered| + |Overlap(filtered, now)|
  {
    if filtered != [] {
      SectionSizes(filtered[1..], now);
      TodayNotLastWeek(now, filtered[0].timestamp);
    }
  }

  // ---------------------------------------------------------------------------
  // What the sidebar shows
  // ---------------------------------------------------------------------------

  const NotFoundText := "No conversations found"
  const NoneYetText := "No conversations yet"

  datatype SidebarView = EmptyState(text: string) | Sections(groups: Groups)

  /** The session list: a notice when the search keeps nothing, the four sections otherwise. */
  function Sidebar(sessions: seq<ChatSession>, query: string, now: Timestamp): (v: SidebarView)
    ensures v.EmptyState? <==> FilterSessions(sessions, query) == []
    ensures v.EmptyState? ==> (v.text == NotFoundText <==> query != "")
    ensures v.Sections? ==> v.groups == GroupByDate(FilterSessions(sessions, query), now)
  {
    var filtered := FilterSessions(sessions, query);
    if |filtered| == 0 then EmptyState(if query != "" then NotFoundText else NoneYetText)
    else Sections(GroupByDate(filtered, now))
  }

  /** "No conversations yet" appears exactly when there are no sessions and no query. */
  lemma NoneYetIff(sessions: seq<ChatSession>, query: string, now: Timestamp)
    ensures Sidebar(sessions, query, now) == EmptyState(NoneYetText) <==> sessions == [] && query == ""
  {
    if query == "" {
      EmptyQueryKeepsAll(sessions);
    }
  }

  /** The whole sidebar is the same for queries that differ only in letter case. */
  lemma SidebarCaseInsensitive(sessions: seq<ChatSession>, q1: string, q2: string, now: Timestamp)
    requires Lower(q1) == Lower(q2)
    ensures Sidebar(sessions, q1, now) == Sidebar(sessions, q2, now)
  {
    FilterCaseInsensitive(sessions, q1, q2);
    assert |q1| == |Lower(q1)| == |Lower(q2)| == |q2|;
  }
}
