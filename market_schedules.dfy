/** The market calendar (trader/market_schedules.py): four trading sessions, each open between a
    local opening and closing time on weekdays. */
module MarketSchedules {

  const SecondsPerDay: int := 24 * 60 * 60

  /** A session and its local opening hours, as seconds after local midnight; open is inclusive,
      close exclusive. */
  datatype Session = Session(name: string, open: int, close: int)

  function Hours(h: int): int { h * 60 * 60 }

  /** The session table, in its fixed order. */
  const Sessions: seq<Session> := [
    Session("Sydney", Hours(7), Hours(16)),
    Session("Tokyo", Hours(9), Hours(18)),
    Session("London", Hours(8), Hours(17)),
    Session("New York", Hours(8), Hours(17))
  ]

  /** A UTC moment, in seconds since 1970-01-01 00:00 UTC, together with each session's UTC offset
      in seconds at that moment (the time-zone database is outside this model). */
  datatype Moment = Moment(utc: int, offsets: seq<int>)

  predicate WellFormed(m: Moment)
  {
    |m.offsets| == |Sessions|
  }

  /** `datetime.weekday()` of the UTC date: Monday is 0; 1970-01-01 was a Thursday. */
  function Weekday(utc: int): (d: int)
    ensures 0 <= d < 7
  {
    (utc / SecondsPerDay + 3) % 7
  }

  /** `is_weekend`: Saturday or Sunday of the UTC date. */
  predicate IsWeekend(m: Moment)
  {
    Weekday(m.utc) >= 5
  }

  /** A week holds exactly two weekend days: the fifth and sixth after a Monday. */
  lemma WeekendIsSaturdayAndSunday(monday: int, k: int)
    requires Weekday(monday) == 0 && 0 <= k < 7
    ensures Weekday(monday + k * SecondsPerDay) == k
    ensures IsWeekend(Moment(monday + k * SecondsPerDay, [])) <==> k == 5 || k == 6
  {
    var day := monday / SecondsPerDay;
    assert (monday + k * SecondsPerDay) / SecondsPerDay == day + k;
  }

  /** The session's local time of day, in seconds after local midnight. */
  function TimeOfDay(m: Moment, i: nat): (t: int)
    requires WellFormed(m) && i < |Sessions|
    ensures 0 <= t < SecondsPerDay
  {
    (m.utc + m.offsets[i]) % SecondsPerDay
  }

  /** A session is open when its local time lies in [open, close). */
  predicate SessionOpenAt(m: Moment, i: nat)
    requires WellFormed(m) && i < |Sessions|
  {
    Sessions[i].open <= TimeOfDay(m, i) < Sessions[i].close
  }

  /** The names of the open sessions among the first `n`, in table order. */
  function OpenAmong(m: Moment, n: nat): seq<string>
    requires WellFormed(m) && n <= |Sessions|
  {
    if n == 0 then []
    else OpenAmong(m, n - 1) + if SessionOpenAt(m, n - 1) then [Sessions[n - 1].name] else []
  }

  /** What `get_active_sessions` reports: nothing on a weekend, otherwise the open sessions. */
  function ActiveSessions(m: Moment): seq<string>
    requires WellFormed(m)
  {
    if IsWeekend(m) then [] else OpenAmong(m, |Sessions|)
  }

  /** `get_active_sessions`. */
  method GetActiveSessions(m: Moment) returns (active: seq<string>)
    requires WellFormed(m)
    ensures active == ActiveSessions(m)
  {
    if IsWeekend(m) {
      return [];
    }
    active := [];
    var i := 0;
    while i < |Sessions|
      invariant 0 <= i <= |Sessions|
      invariant active == OpenAmong(m, i)
    {
      var session := Sessions[i];
      if session.open <= TimeOfDay(m, i) < session.close {
        active := active + [session.name];
      }
      i := i + 1;
    }
  }

  /** The session names are distinct. */
  lemma SessionNamesDistinct()
    ensures forall i, j :: 0 <= i < j < |Sessions| ==> Sessions[i].name != Sessions[j].name
  {
  }

  /** A session is listed exactly when it is open, among the first `n` sessions. */
  lemma {:induction false} OpenAmongMembership(m: Moment, n: nat)
    requires WellFormed(m) && n <= |Sessions|
    ensures forall i :: 0 <= i < |Sessions| ==> (Sessions[i].name in OpenAmong(m, n) <==> i < n && SessionOpenAt(m, i))
  {
    SessionNamesDistinct();
    if n > 0 {
      OpenAmongMembership(m, n - 1);
    }
  }

  /** Some session is listed exactly when one of the first `n` is open. */
  lemma {:induction false} OpenAmongNonEmpty(m: Moment, n: nat)
    requires WellFormed(m) && n <= |Sessions|
    ensures |OpenAmong(m, n)| > 0 <==> exists i :: 0 <= i < n && SessionOpenAt(m, i)
  {
    if n > 0 {
      OpenAmongNonEmpty(m, n - 1);
    }
  }

  /** Nothing is active on a weekend; on a weekday a session is listed exactly when its local time
      lies in its opening hours. */
  lemma ActiveSessionsMembership(m: Moment)
    requires WellFormed(m)
    ensures IsWeekend(m) ==> ActiveSessions(m) == []
    ensures forall i :: 0 <= i < |Sessions| ==>
      (Sessions[i].name in ActiveSessions(m) <==> !IsWeekend(m) && SessionOpenAt(m, i))
  {
    OpenAmongMembership(m, |Sessions|);
  }

  /** `is_market_open`: closed on a weekend, otherwise open when some session is active. */
  function MarketOpen(now: Moment): (open: bool)
    requires WellFormed(now)
    ensures open <==> !IsWeekend(now) && exists i :: 0 <= i < |Sessions| && SessionOpenAt(now, i)
  {
    OpenAmongNonEmpty(now, |Sessions|);
    if IsWeekend(now) then false else |ActiveSessions(now)| > 0
  }

  /** The next opening of a session, seen from `m`: today's local opening if it is still ahead,
      otherwise tomorrow's (the offset is taken to stay as it is until then). */
  function Candidate(m: Moment, i: nat): int
    requires WellFormed(m) && i < |Sessions|
  {
    var t := TimeOfDay(m, i);
    m.utc - t + Sessions[i].open + if t >= Sessions[i].open then SecondsPerDay else 0
  }

  /** Every candidate lies strictly after `m` and at most one day after it. */
  lemma CandidateAhead(m: Moment, i: nat)
    requires WellFormed(m) && i < |Sessions|
    ensures m.utc < Candidate(m, i) <= m.utc + SecondsPerDay
  {
  }

  datatype NextOpen = NextOpen(session: string, openTime: int)

  /** `get_next_market_open`: nothing when `dt` is a weekday and the market is open now (the
      openness test reads the current clock `now`, not `dt`); otherwise the earliest candidate,
      ties going to the first session in table order. */
  method GetNextMarketOpen(dt: Moment, now: Moment) returns (next: Option<NextOpen>)
    requires WellFormed(dt) && WellFormed(now)
    ensures next.None? <==> !IsWeekend(dt) && MarketOpen(now)
    ensures next.Some? ==>
      exists i :: 0 <= i < |Sessions| &&
        next.value == NextOpen(Sessions[i].name, Candidate(dt, i)) &&
        (forall j :: 0 <= j < |Sessions| ==> Candidate(dt, i) <= Candidate(dt, j)) &&
        (forall j :: 0 <= j < i ==> Candidate(dt, j) > Candidate(dt, i))
  {
    if !IsWeekend(dt) && MarketOpen(now) {
      return None;
    }
    var nextOpen := Candidate(dt, 0);
    var nextSession := Sessions[0].name;
    ghost var best := 0;
    var i := 1;
    while i < |Sessions|
      invariant 1 <= i <= |Sessions|
      invariant 0 <= best < i
      invariant nextOpen == Candidate(dt, best) && nextSession == Sessions[best].name
      invariant forall j :: 0 <= j < i ==> nextOpen <= Candidate(dt, j)
      invariant forall j :: 0 <= j < best ==> Candidate(dt, j) > nextOpen
    {
      var sessionOpen := Candidate(dt, i);
      if sessionOpen < nextOpen {
        nextOpen := sessionOpen;
        nextSession := Sessions[i].name;
        best := i;
      }
      i := i + 1;
    }
    return Some(NextOpen(nextSession, nextOpen));
  }

  /** Whatever `get_next_market_open` returns lies strictly after `dt`, within one day. */
  lemma NextOpenAhead(dt: Moment, next: NextOpen)
    requires WellFormed(dt)
    requires exists i :: 0 <= i < |Sessions| && next == NextOpen(Sessions[i].name, Candidate(dt, i))
    ensures dt.utc < next.openTime <= dt.utc + SecondsPerDay
  {
    var i :| 0 <= i < |Sessions| && next == NextOpen(Sessions[i].name, Candidate(dt, i));
    CandidateAhead(dt, i);
  }

  /** The per-session part of `get_market_state`: its local time of day, and whether it lies in the
      session's opening hours. */
  datatype SessionTime = SessionTime(localTime: int, isOpen: bool)

  datatype MarketState = MarketState(timestamp: int, isWeekend: bool, activeSessions: seq<string>, sessionTimes: seq<SessionTime>)

  /** `get_market_state`: the weekend flag, the active sessions and, per session in table order, the
      local time and the opening-hours test, which (unlike the active list) ignores the weekend. */
  method GetMarketState(now: Moment) returns (state: MarketState)
    requires WellFormed(now)
    ensures state.timestamp == now.utc && state.isWeekend == IsWeekend(now)
    ensures state.activeSessions == ActiveSessions(now)
    ensures |state.sessionTimes| == |Sessions|
    ensures forall i :: 0 <= i < |Sessions| ==>
      state.sessionTimes[i] == SessionTime(TimeOfDay(now, i), SessionOpenAt(now, i))
  {
    var active := GetActiveSessions(now);
    var times: seq<SessionTime> := [];
    var i := 0;
    while i < |Sessions|
      invariant 0 <= i <= |Sessions|
      invariant |times| == i
      invariant forall j :: 0 <= j < i ==> times[j] == SessionTime(TimeOfDay(now, j), SessionOpenAt(now, j))
    {
      var localTime := TimeOfDay(now, i);
      times := times + [SessionTime(localTime, Sessions[i].open <= localTime < Sessions[i].close)];
      i := i + 1;
    }
    state := MarketState(now.utc, IsWeekend(now), active, times);
  }

  /** On a weekday an open session is reported both ways; on a weekend no session is active even
      though the per-session test may report some open. */
  lemma MarketStateAgrees(now: Moment, state: MarketState)
    requires WellFormed(now)
    requires state.activeSessions == ActiveSessions(now) && |state.sessionTimes| == |Sessions|
    requires forall i :: 0 <= i < |Sessions| ==> state.sessionTimes[i].isOpen == SessionOpenAt(now, i)
    ensures forall i :: 0 <= i < |Sessions| ==>
      (Sessions[i].name in state.activeSessions <==> !IsWeekend(now) && state.sessionTimes[i].isOpen)
  {
    ActiveSessionsMembership(now);
  }

  datatype Option<T> = None | Some(value: T)
}
