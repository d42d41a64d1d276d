/**
 The dashboard component as a whole: mounting reads the session user and the
 stored history, each live "ticketBooked" event appends and recomputes, and
 rendering shows the reports or the denial view according to the gate.
 */
module Dashboard {
  import opened Wrappers
  import opened Bookings
  import opened Clock
  import opened Tally
  import opened Aggregator
  import opened Storage
  import opened Access

  /** Component state: the user read at mount and the current statistics. */
  datatype State = State(user: Option<User>, stats: Stats)

  /** What the component shows. */
  datatype View = AccessDenied | Report(stats: Stats)

  /** The component state together with the local storage it reads and writes. */
  datatype World = World(state: State, local: LocalStore)

  /** Mounting: read the user from session storage and compute the statistics of the stored history. */
  function Mount(session: SessionStore, local: LocalStore, hourOf: int -> Hour): World {
    World(State(CurrentUser(session), CalculateStats(LoadBookings(local), hourOf)), local)
  }

  /** One live event: the handler rewrites storage and replaces the statistics; the user is untouched. */
  function Deliver(w: World, payload: Booking, hourOf: int -> Hour): (w': World)
    ensures w'.state.user == w.state.user
    ensures LoadBookings(w'.local) == LoadBookings(w.local) + [payload]
    ensures w'.state.stats == CalculateStats(LoadBookings(w'.local), hourOf)
  {
    var d := OnTicketBooked(w.local, payload, hourOf);
    World(State(w.state.user, d.stats), d.store)
  }

  /** A sequence of live events delivered one after another. */
  function Replay(w: World, events: seq<Booking>, hourOf: int -> Hour): World {
    if events == [] then w
    else Deliver(Replay(w, events[..|events| - 1], hourOf), events[|events| - 1], hourOf)
  }

  /** Rendering: the reports when the gate admits the user, the denial view otherwise. */
  function Render(s: State): View {
    if CanViewReports(s.user) then Report(s.stats) else AccessDenied
  }

  /**
   Live events only ever append: after any number of them the stored history
   is the earlier one followed by the events in arrival order, the user is
   unchanged, and after at least one the statistics are those of the whole
   stored history.
   */
  lemma {:induction false} ReplayAppends(w: World, events: seq<Booking>, hourOf: int -> Hour)
    ensures var w' := Replay(w, events, hourOf);
            && LoadBookings(w'.local) == LoadBookings(w.local) + events
            && w'.state.user == w.state.user
            && (events != [] ==> w'.state.stats == CalculateStats(LoadBookings(w'.local), hourOf))
  {
    if events != [] {
      var prefix, e := events[..|events| - 1], events[|events| - 1];
      ReplayAppends(w, prefix, hourOf);
      var mid := Replay(w, prefix, hourOf);
      var w' := Deliver(mid, e, hourOf);
      assert Replay(w, events, hourOf) == w';
      SnocSplit(events);
      assert (LoadBookings(w.local) + prefix) + [e] == LoadBookings(w.local) + events;
    }
  }

  /**
   After mounting and any number of live events, the statistics are those of
   the initial history followed by the events, and the user is the one read
   at mount.
   */
  lemma ReplayFromMount(session: SessionStore, local: LocalStore, events: seq<Booking>, hourOf: int -> Hour)
    ensures var w := Replay(Mount(session, local, hourOf), events, hourOf);
            && LoadBookings(w.local) == LoadBookings(local) + events
            && w.state.stats == CalculateStats(LoadBookings(local) + events, hourOf)
            && w.state.user == CurrentUser(session)
  {
    var m := Mount(session, local, hourOf);
    ReplayAppends(m, events, hourOf);
    if events == [] {
      assert LoadBookings(local) + events == LoadBookings(local);
    }
  }

  /**
   The dashboard is shown exactly when session storage holds a readable
   "user" record whose role is "admin" or "manager", whatever the stored
   history and the live events; when shown, it reports the statistics of the
   whole history.
   */
  lemma GateDecidesView(session: SessionStore, local: LocalStore, events: seq<Booking>, hourOf: int -> Hour)
    ensures var v := Render(Replay(Mount(session, local, hourOf), events, hourOf).state);
            && (v.Report? <==> && SessionUserKey in session
                               && session[SessionUserKey].UserRecord?
                               && session[SessionUserKey].user.role in ReportRoles)
            && (v.Report? ==> v.stats == CalculateStats(LoadBookings(local) + events, hourOf))
  {
    ReplayFromMount(session, local, events, hourOf);
    GateAdmitsReportRoles(CurrentUser(session));
  }

  /** With no bookings stored and no events, an admitted user sees a total of 0, no users and no hours. */
  lemma EmptyHistoryReport(session: SessionStore, local: LocalStore, hourOf: int -> Hour)
    requires BookingsKey !in local
    requires CanViewReports(CurrentUser(session))
    ensures Render(Mount(session, local, hourOf).state) == Report(Stats(0, [], []))
  {
  }

  lemma SnocSplit(s: seq<Booking>)
    requires s != []
    ensures s[..|s| - 1] + [s[|s| - 1]] == s
  {
  }
}
