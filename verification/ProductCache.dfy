/** The product list cache as a machine of atomic sections. Gets are coalesced by one flight;
    Refresh may also be called directly, and reads the clock before it takes the lock, so
    overlapping refreshes may commit in any order. */
module ProductCache {
  import opened Basics
  import opened Whmcs
  import opened CacheTrace

  datatype Phase =
    | Fetching
    | Fetched(outcome: Fetch)                   // clock not read yet
    | Stamped(outcome: Fetch, stamp: int)       // lock not taken yet
    | Stored(outcome: Fetch)

  /** One execution of Refresh; `flight` is the Get flight that runs it, if any. */
  datatype Refresh = Refresh(flight: Option<nat>, phase: Phase)

  datatype Stage =
    | Rechecking
    | Refreshing(refresh: nat)
    | Answered(outcome: Fetch)
    | Finished(outcome: Fetch)

  datatype Getter = Looking | Missed | InFlight(flight: nat) | Done(outcome: Fetch)

  datatype State = State(
    now: int,
    products: seq<Product>,
    at: Option<int>,                            // None: the zero time
    lastAttempt: Option<int>,
    lastErr: string,
    open: Option<nat>,
    flights: seq<Stage>,
    refreshes: seq<Refresh>,
    getters: seq<Getter>,
    history: History)

  datatype Op =
    | Tick(elapsed: nat)
    | BeginGet
    | Look(getter: nat)
    | Enter(getter: nat)
    | Recheck(flight: nat)
    | BeginRefresh
    | FetchReturn(refresh: nat, outcome: Fetch)
    | Stamp(refresh: nat)
    | Commit(refresh: nat)
    | Resume(flight: nat)                       // the leader's Refresh has returned
    | Publish(flight: nat)
    | Collect(getter: nat)

  function Init(now: int): State { State(now, [], None, None, "", None, [], [], [], []) }

  predicate Can(s: State, op: Op) {
    match op
    case Tick(_) => true
    case BeginGet => true
    case BeginRefresh => true
    case Look(g) => g < |s.getters| && s.getters[g] == Looking
    case Enter(g) => g < |s.getters| && s.getters[g] == Missed
    case Recheck(f) => f < |s.flights| && s.flights[f] == Rechecking
    case FetchReturn(r, _) => r < |s.refreshes| && s.refreshes[r].phase == Fetching
    case Stamp(r) => r < |s.refreshes| && s.refreshes[r].phase.Fetched?
    case Commit(r) => r < |s.refreshes| && s.refreshes[r].phase.Stamped?
    case Resume(f) =>
      && f < |s.flights| && s.flights[f].Refreshing?
      && s.flights[f].refresh < |s.refreshes| && s.refreshes[s.flights[f].refresh].phase.Stored?
    case Publish(f) => f < |s.flights| && s.flights[f].Answered?
    case Collect(g) =>
      && g < |s.getters| && s.getters[g].InFlight?
      && s.getters[g].flight < |s.flights| && s.flights[s.getters[g].flight].Finished?
  }

  /** The list is served from the cache: there is one, and it is less than `ttl` old. */
  predicate Fresh(ttl: int, s: State) { s.at.Some? && s.now - s.at.value < ttl }

  function SetGetter(s: State, g: nat, to: Getter): State
    requires g < |s.getters|
  {
    s.(getters := s.getters[g := to])
  }

  function SetStage(s: State, f: nat, to: Stage): State
    requires f < |s.flights|
  {
    s.(flights := s.flights[f := to])
  }

  function SetPhase(s: State, r: nat, to: Phase): State
    requires r < |s.refreshes|
  {
    s.(refreshes := s.refreshes[r := s.refreshes[r].(phase := to)])
  }

  function CommitEvent(s: State, r: nat): Event
    requires Can(s, Commit(r))
  {
    Committed(s.now, r, s.refreshes[r].phase.outcome, s.refreshes[r].phase.stamp)
  }

  /** What an operation is observed as, if anything. */
  function News(ttl: int, s: State, op: Op): seq<Event>
    requires Can(s, op)
  {
    match op
    case Tick(_) => []
    case BeginGet => [Began(s.now, |s.getters|)]
    case Look(g) => if Fresh(ttl, s) then [Hit(s.now, g, s.products, s.at.value)] else []
    case Enter(g) => [if s.open.Some? then Joined(s.now, g, s.open.value) else Opened(s.now, g, |s.flights|)]
    case Recheck(f) =>
      [if Fresh(ttl, s) then Rechecked(s.now, f, s.products, s.at.value)
       else FetchStarted(s.now, |s.refreshes|, Some(f))]
    case BeginRefresh => [FetchStarted(s.now, |s.refreshes|, None)]
    case FetchReturn(r, o) => [FetchReturned(s.now, r, o)]
    case Stamp(_) => []
    case Commit(r) => [CommitEvent(s, r)]
    case Resume(_) => []
    case Publish(f) => [Closed(s.now, f, s.flights[f].outcome)]
    case Collect(g) => [Returned(s.now, g, s.getters[g].flight, s.flights[s.getters[g].flight].outcome)]
  }

  function Next(ttl: int, s: State, op: Op): State
    requires Can(s, op)
  {
    var t := s.(history := s.history + News(ttl, s, op));
    match op
    case Tick(elapsed) => t.(now := s.now + elapsed)
    case BeginGet => t.(getters := s.getters + [Looking])
    case Look(g) => SetGetter(t, g, if Fresh(ttl, s) then Done(Ok(s.products)) else Missed)
    case Enter(g) =>
      if s.open.Some? then SetGetter(t, g, InFlight(s.open.value))
      else SetGetter(t, g, InFlight(|s.flights|)).(open := Some(|s.flights|), flights := s.flights + [Rechecking])
    case Recheck(f) =>
      if Fresh(ttl, s) then SetStage(t, f, Answered(Ok(s.products)))
      else SetStage(t, f, Refreshing(|s.refreshes|)).(refreshes := s.refreshes + [Refresh(Some(f), Fetching)])
    case BeginRefresh => t.(refreshes := s.refreshes + [Refresh(None, Fetching)])
    case FetchReturn(r, o) => SetPhase(t, r, Fetched(o))
    case Stamp(r) => SetPhase(t, r, Stamped(s.refreshes[r].phase.outcome, s.now))
    case Commit(r) =>
      var o, stamp := s.refreshes[r].phase.outcome, s.refreshes[r].phase.stamp;
      var u := SetPhase(t, r, Stored(o)).(lastAttempt := Some(stamp));
      if o.Err? then u.(lastErr := o.error)
      else u.(lastErr := "", products := o.value, at := Some(stamp))
    case Resume(f) => SetStage(t, f, Answered(s.refreshes[s.flights[f].refresh].phase.outcome))
    case Publish(f) => SetStage(t, f, Finished(s.flights[f].outcome)).(open := None)
    case Collect(g) => SetGetter(t, g, Done(s.flights[s.getters[g].flight].outcome))
  }

  // ------------------------------------------------------------ invariant

  function Rank(phase: Phase): nat {
    match phase
    case Fetching => 0
    case Fetched(_) => 1
    case Stamped(_, _) => 2
    case Stored(_) => 3
  }

  predicate RefreshPast(s: State, r: nat, rank: nat) { r < |s.refreshes| && Rank(s.refreshes[r].phase) >= rank }

  /** The leader of the flight has looked at the list. */
  predicate Checked(s: State, f: nat) { f < |s.flights| && s.flights[f] != Rechecking }

  /** What an event in the history says about the current state. */
  predicate Reflected(s: State, e: Event) {
    && e.time <= s.now
    && match e
       case Began(_, g) => g < |s.getters|
       case Hit(_, _, _, _) => true
       case Opened(_, _, f) => f < |s.flights|
       case Joined(_, _, _) => true
       case Rechecked(_, f, _, _) => Checked(s, f)
       case FetchStarted(_, r, leads) => RefreshPast(s, r, 0) && (leads.Some? ==> Checked(s, leads.value))
       case FetchReturned(_, r, _) => RefreshPast(s, r, 1)
       case Committed(_, r, _, _) => RefreshPast(s, r, 3)
       case Closed(_, f, _) => f < |s.flights| && s.flights[f].Finished?
       case Returned(_, _, _, _) => true
  }

  ghost predicate RefreshOk(s: State, r: nat)
    requires r < |s.refreshes|
  {
    && (s.refreshes[r].flight.Some? && !s.refreshes[r].phase.Stored? ==>
          s.refreshes[r].flight.value < |s.flights| && s.flights[s.refreshes[r].flight.value] == Refreshing(r))
    && match s.refreshes[r].phase
       case Fetching => exists k :: HasStarted(s.history, r, k)
       case Fetched(o) => HasReturned(s.history, r, o, s.now)
       case Stamped(o, x) => HasReturned(s.history, r, o, x) && x <= s.now
       case Stored(o) => HasCommitted(s.history, r, o)
  }

  ghost predicate FlightOk(s: State, f: nat)
    requires f < |s.flights|
  {
    && HasOpened(s.history, f)
    && (!s.flights[f].Finished? ==> s.open == Some(f))
    && match s.flights[f]
       case Rechecking => true
       case Refreshing(r) => r < |s.refreshes| && HasStarted(s.history, r, Some(f))
       case Answered(o) => Answers(s.history, f, o)
       case Finished(o) => HasClosed(s.history, f, o)
  }

  ghost predicate GetterOk(s: State, g: nat)
    requires g < |s.getters|
  {
    && HasBegan(s.history, g)
    && (s.getters[g].InFlight? ==> s.getters[g].flight < |s.flights| && HasEntered(s.history, g, s.getters[g].flight))
    && (s.getters[g].Done? ==> Gets(s.history, g, s.getters[g].outcome))
  }

  /** The four fields are determined by the commits: the list and its time come from the last
      successful one, the attempt and the error from the last one of either kind. */
  ghost predicate FieldsOk(s: State) {
    var c, l := LastSuccess(s.history), LastCommit(s.history);
    && (c.None? ==> s.at == None && s.products == [])
    && (c.Some? ==> s.at == Some(s.history[c.value].stamp) && s.history[c.value].outcome == Ok(s.products))
    && (l.None? ==> s.lastAttempt == None && s.lastErr == "")
    && (l.Some? ==> s.lastAttempt == Some(s.history[l.value].stamp)
                    && s.lastErr == match s.history[l.value].outcome case Ok(_) => "" case Err(m) => m)
  }

  ghost predicate Inv(ttl: int, s: State) {
    && Legal(ttl, s.history) && FieldsOk(s)
    && (forall e {:trigger Reflected(s, e)} :: e in s.history ==> Reflected(s, e))
    && (forall r: nat {:trigger RefreshOk(s, r)} :: r < |s.refreshes| ==> RefreshOk(s, r))
    && (forall f: nat {:trigger FlightOk(s, f)} :: f < |s.flights| ==> FlightOk(s, f))
    && (forall g: nat {:trigger GetterOk(s, g)} :: g < |s.getters| ==> GetterOk(s, g))
    && (s.open.Some? ==> s.open.value < |s.flights| && !s.flights[s.open.value].Finished?)
  }

  // ------------------------------------------- every section keeps it

  ghost predicate Observes(s: State, t: State, news: seq<Event>) {
    |news| <= 1 && t.history == s.history + news
  }

  ghost predicate RefreshesLater(s: State, t: State) {
    && |s.refreshes| <= |t.refreshes|
    && forall r: nat :: r < |s.refreshes| ==> Rank(s.refreshes[r].phase) <= Rank(t.refreshes[r].phase)
  }

  ghost predicate FlightsLater(s: State, t: State) {
    && |s.flights| <= |t.flights|
    && (forall f: nat {:trigger Checked(t, f)} :: Checked(s, f) ==> Checked(t, f))
    && (forall f: nat :: f < |s.flights| && s.flights[f].Finished? ==> t.flights[f].Finished?)
  }

  /** Refreshes and flights only move forward. */
  ghost predicate Later(s: State, t: State) {
    s.now <= t.now && |s.getters| <= |t.getters| && RefreshesLater(s, t) && FlightsLater(s, t)
  }

  lemma ReflectedLater(s: State, t: State, e: Event)
    requires Reflected(s, e) && Later(s, t)
    ensures Reflected(t, e)
  {
    match e
    case FetchStarted(_, r, leads) => assert leads.Some? ==> Checked(t, leads.value);
    case _ =>
  }

  lemma RefreshKept(s: State, t: State, news: seq<Event>, r: nat)
    requires r < |s.refreshes| && r < |t.refreshes| && t.refreshes[r] == s.refreshes[r] && RefreshOk(s, r)
    requires Observes(s, t, news) && s.now <= t.now
    requires s.refreshes[r].flight.Some? && !s.refreshes[r].phase.Stored? ==>
               s.refreshes[r].flight.value < |t.flights| && t.flights[s.refreshes[r].flight.value] == Refreshing(r)
    ensures RefreshOk(t, r)
  {
    match s.refreshes[r].phase
    case Fetching =>
      var k :| HasStarted(s.history, r, k);
      StartedGrows(s.history, news, r, k);
    case Fetched(o) =>
      var x :| FetchReturned(x, r, o) in s.history && x <= s.now;
      assert FetchReturned(x, r, o) in t.history;
    case Stamped(o, stamp) =>
      var x :| FetchReturned(x, r, o) in s.history && x <= stamp;
      assert FetchReturned(x, r, o) in t.history;
    case Stored(o) => CommittedGrows(s.history, news, r, o);
  }

  lemma FlightKept(s: State, t: State, news: seq<Event>, f: nat)
    requires f < |s.flights| && f < |t.flights| && t.flights[f] == s.flights[f] && FlightOk(s, f)
    requires Observes(s, t, news) && |s.refreshes| <= |t.refreshes|
    requires !s.flights[f].Finished? ==> t.open == Some(f)
    ensures FlightOk(t, f)
  {
    OpenedGrows(s.history, news, f);
    match s.flights[f]
    case Rechecking =>
    case Refreshing(r) => StartedGrows(s.history, news, r, Some(f));
    case Answered(o) => AnswersGrow(s.history, news, f, o);
    case Finished(o) => ClosedGrows(s.history, news, f, o);
  }

  lemma GetterKept(s: State, t: State, news: seq<Event>, g: nat)
    requires g < |s.getters| && g < |t.getters| && t.getters[g] == s.getters[g] && GetterOk(s, g)
    requires Observes(s, t, news) && |s.flights| <= |t.flights|
    ensures GetterOk(t, g)
  {
    BeganGrows(s.history, news, g);
    if s.getters[g].InFlight? { EnteredGrows(s.history, news, g, s.getters[g].flight); }
    if s.getters[g].Done? { GetsGrow(s.history, news, g, s.getters[g].outcome); }
  }

  lemma UnfinishedIsOpen(ttl: int, s: State)
    requires Inv(ttl, s)
    ensures forall f: nat :: f < |s.flights| && !s.flights[f].Finished? ==> s.open == Some(f)
  {
    forall f: nat | f < |s.flights| && !s.flights[f].Finished? ensures s.open == Some(f) {
      assert FlightOk(s, f);
    }
  }

  /** The history stays legal and reflected. */
  lemma HistoryKept(ttl: int, s: State, t: State, news: seq<Event>)
    requires Inv(ttl, s) && Later(s, t) && Observes(s, t, news)
    requires news != [] ==> Justified(ttl, s.history, news[0]) && Reflected(t, news[0])
    ensures Legal(ttl, t.history)
    ensures forall e {:trigger Reflected(t, e)} :: e in t.history ==> Reflected(t, e)
  {
    if news == [] {
      assert t.history == s.history;
    } else {
      assert news == [news[0]];
      LegalAppend(ttl, s.history, news[0]);
    }
    forall e | e in t.history ensures Reflected(t, e) {
      if e in s.history { ReflectedLater(s, t, e); }
    }
  }

  /** What every section does besides moving its own part of the state. */
  ghost predicate IsStep(ttl: int, s: State, t: State, news: seq<Event>) {
    && Later(s, t) && Observes(s, t, news) && FieldsOk(t)
    && (news != [] ==> Justified(ttl, s.history, news[0]) && Reflected(t, news[0]))
  }

  /** A section keeps the invariant if its event is justified, it keeps the four fields right, and
      what it moved is right. */
  lemma SectionKeeps(ttl: int, s: State, t: State, news: seq<Event>)
    requires Inv(ttl, s) && IsStep(ttl, s, t, news)
    requires t.open.Some? ==> t.open.value < |t.flights| && !t.flights[t.open.value].Finished?
    requires forall f: nat :: f < |s.flights| && s.flights[f].Refreshing? && t.flights[f] != s.flights[f]
               ==> s.flights[f].refresh < |s.refreshes| && s.refreshes[s.flights[f].refresh].phase.Stored?
    requires forall r: nat {:trigger RefreshOk(t, r)} :: r < |t.refreshes| ==>
               (r < |s.refreshes| && t.refreshes[r] == s.refreshes[r]) || RefreshOk(t, r)
    requires forall f: nat {:trigger FlightOk(t, f)} :: f < |t.flights| ==>
               (f < |s.flights| && t.flights[f] == s.flights[f] && (s.flights[f].Finished? || t.open == s.open))
               || FlightOk(t, f)
    requires forall g: nat {:trigger GetterOk(t, g)} :: g < |t.getters| ==>
               (g < |s.getters| && t.getters[g] == s.getters[g]) || GetterOk(t, g)
    ensures Inv(ttl, t)
  {
    HistoryKept(ttl, s, t, news);
    UnfinishedIsOpen(ttl, s);
    forall r: nat | r < |t.refreshes| ensures RefreshOk(t, r) {
      if r < |s.refreshes| && t.refreshes[r] == s.refreshes[r] {
        assert RefreshOk(s, r);
        RefreshKept(s, t, news, r);
      }
    }
    forall f: nat | f < |t.flights| ensures FlightOk(t, f) {
      if f < |s.flights| && t.flights[f] == s.flights[f] && (s.flights[f].Finished? || t.open == s.open) {
        assert FlightOk(s, f);
        FlightKept(s, t, news, f);
      }
    }
    forall g: nat | g < |t.getters| ensures GetterOk(t, g) {
      if g < |s.getters| && t.getters[g] == s.getters[g] {
        assert GetterOk(s, g);
        GetterKept(s, t, news, g);
      }
    }
  }

  lemma LastsAfter(h: History, e: Event)
    ensures LastCommit(h + [e]) == if e.Committed? then Some(|h|) else LastCommit(h)
    ensures LastSuccess(h + [e]) == if e.Committed? && e.outcome.Ok? then Some(|h|) else LastSuccess(h)
  {
    var g := h + [e];
    assert g[..|g| - 1] == h;
  }

  /** An event that is no commit leaves the four fields right if they did not change. */
  lemma FieldsKept(s: State, t: State, news: seq<Event>)
    requires FieldsOk(s) && Observes(s, t, news) && (news != [] ==> !news[0].Committed?)
    requires t.at == s.at && t.products == s.products && t.lastAttempt == s.lastAttempt && t.lastErr == s.lastErr
    ensures FieldsOk(t)
  {
    if news == [] {
      assert t.history == s.history;
    } else {
      assert news == [news[0]];
      LastsAfter(s.history, news[0]);
      var c, l := LastSuccess(s.history), LastCommit(s.history);
      assert c.Some? ==> t.history[c.value] == s.history[c.value];
      assert l.Some? ==> t.history[l.value] == s.history[l.value];
    }
  }

  lemma InOrder(ttl: int, s: State)
    requires Inv(ttl, s)
    ensures forall d :: d in s.history ==> d.time <= s.now
  {
    forall d | d in s.history ensures d.time <= s.now { assert Reflected(s, d); }
  }

  /** A fresh list is the list of the last successful refresh, and is less than `ttl` old. */
  lemma FreshIsCurrent(ttl: int, s: State)
    requires Inv(ttl, s)
    ensures Fresh(ttl, s) ==> Current(s.history, s.products, s.at.value) && s.at.value <= s.now < s.at.value + ttl
    ensures !Fresh(ttl, s) ==> Stale(ttl, s.history, s.now)
  {
    if Fresh(ttl, s) {
      var k := LastSuccess(s.history).value;
      assert JustifiedAt(ttl, s.history, k);
      assert s.history[k] in s.history && Reflected(s, s.history[k]);
    }
  }

  lemma NotClosed(ttl: int, s: State, f: nat)
    requires Inv(ttl, s) && f < |s.flights| && !s.flights[f].Finished?
    ensures Active(s.history, f)
  {
    assert FlightOk(s, f);
    forall t, o ensures Closed(t, f, o) !in s.history {
      assert Closed(t, f, o) in s.history ==> Reflected(s, Closed(t, f, o));
    }
  }

  /** Without an open flight none is active, and the next flight number is new. */
  lemma NoneActive(ttl: int, s: State)
    requires Inv(ttl, s) && s.open.None?
    ensures forall k :: !Active(s.history, k)
    ensures !HasOpened(s.history, |s.flights|)
  {
    forall k: nat ensures !Active(s.history, k) {
      if HasOpened(s.history, k) {
        var t, g :| Opened(t, g, k) in s.history;
        assert Reflected(s, Opened(t, g, k));
        assert FlightOk(s, k);
      }
    }
    forall t, g ensures Opened(t, g, |s.flights|) !in s.history {
      assert Opened(t, g, |s.flights|) in s.history ==> Reflected(s, Opened(t, g, |s.flights|));
    }
  }

  lemma NotChecked(ttl: int, s: State, f: nat)
    requires Inv(ttl, s) && f < |s.flights| && s.flights[f] == Rechecking
    ensures Unchecked(s.history, f)
  {
    forall t, r ensures FetchStarted(t, r, Some(f)) !in s.history {
      assert FetchStarted(t, r, Some(f)) in s.history ==> Reflected(s, FetchStarted(t, r, Some(f)));
    }
    forall t, list, at ensures Rechecked(t, f, list, at) !in s.history {
      assert Rechecked(t, f, list, at) in s.history ==> Reflected(s, Rechecked(t, f, list, at));
    }
  }

  lemma NeverStarted(ttl: int, s: State)
    requires Inv(ttl, s)
    ensures forall k :: !HasStarted(s.history, |s.refreshes|, k)
  {
    forall t, k ensures FetchStarted(t, |s.refreshes|, k) !in s.history {
      assert FetchStarted(t, |s.refreshes|, k) in s.history ==> Reflected(s, FetchStarted(t, |s.refreshes|, k));
    }
  }

  lemma EnterJustified(ttl: int, s: State, g: nat)
    requires Inv(ttl, s) && Can(s, Enter(g))
    ensures Justified(ttl, s.history, News(ttl, s, Enter(g))[0])
  {
    InOrder(ttl, s);
    assert GetterOk(s, g);
    if s.open.Some? { NotClosed(ttl, s, s.open.value); } else { NoneActive(ttl, s); }
  }

  lemma RecheckJustified(ttl: int, s: State, f: nat)
    requires Inv(ttl, s) && Can(s, Recheck(f))
    ensures Justified(ttl, s.history, News(ttl, s, Recheck(f))[0])
  {
    InOrder(ttl, s);
    FreshIsCurrent(ttl, s);
    NotClosed(ttl, s, f);
    NotChecked(ttl, s, f);
    NeverStarted(ttl, s);
  }

  lemma BeginGetJustified(ttl: int, s: State)
    requires Inv(ttl, s)
    ensures Justified(ttl, s.history, Began(s.now, |s.getters|))
  {
    InOrder(ttl, s);
    forall t ensures Began(t, |s.getters|) !in s.history {
      assert Began(t, |s.getters|) in s.history ==> Reflected(s, Began(t, |s.getters|));
    }
  }

  /** Every event that an operation is observed as is justified. */
  lemma NewsIsJustified(ttl: int, s: State, op: Op)
    requires Inv(ttl, s) && Can(s, op)
    ensures News(ttl, s, op) != [] ==> Justified(ttl, s.history, News(ttl, s, op)[0])
  {
    match op
    case BeginGet => BeginGetJustified(ttl, s);
    case Enter(g) => EnterJustified(ttl, s, g);
    case Recheck(f) => RecheckJustified(ttl, s, f);
    case Commit(r) => CommitJustified(ttl, s, r);
    case Look(g) =>
      InOrder(ttl, s);
      FreshIsCurrent(ttl, s);
      assert GetterOk(s, g);
    case BeginRefresh =>
      InOrder(ttl, s);
      NeverStarted(ttl, s);
    case FetchReturn(r, _) =>
      InOrder(ttl, s);
      assert RefreshOk(s, r);
    case Publish(f) =>
      InOrder(ttl, s);
      NotClosed(ttl, s, f);
      assert FlightOk(s, f);
    case Collect(g) =>
      InOrder(ttl, s);
      assert GetterOk(s, g);
      assert FlightOk(s, s.getters[g].flight);
    case _ =>
  }

  lemma CommitJustified(ttl: int, s: State, r: nat)
    requires Inv(ttl, s) && Can(s, Commit(r))
    ensures Justified(ttl, s.history, CommitEvent(s, r))
  {
    InOrder(ttl, s);
    assert RefreshOk(s, r);
    forall x, o, y ensures Committed(x, r, o, y) !in s.history {
      assert Committed(x, r, o, y) in s.history ==> Reflected(s, Committed(x, r, o, y));
    }
  }

  lemma RefreshesAdvance(ttl: int, s: State, op: Op)
    requires Can(s, op)
    ensures RefreshesLater(s, Next(ttl, s, op))
  {}

  lemma FlightsAdvance(ttl: int, s: State, op: Op)
    requires Can(s, op)
    ensures FlightsLater(s, Next(ttl, s, op))
  {}

  lemma NextIsLater(ttl: int, s: State, op: Op)
    requires Can(s, op)
    ensures Later(s, Next(ttl, s, op))
  {
    RefreshesAdvance(ttl, s, op);
    FlightsAdvance(ttl, s, op);
  }

  lemma NewsIsReflected(ttl: int, s: State, op: Op)
    requires Can(s, op)
    ensures var t, news := Next(ttl, s, op), News(ttl, s, op);
            Observes(s, t, news) && (news != [] && news[0].time <= s.now ==> Reflected(t, news[0]))
  {}

  lemma CommitFields(ttl: int, s: State, r: nat)
    requires FieldsOk(s) && Can(s, Commit(r))
    ensures FieldsOk(Next(ttl, s, Commit(r)))
  {
    var t, e := Next(ttl, s, Commit(r)), CommitEvent(s, r);
    LastsAfter(s.history, e);
    var c := LastSuccess(s.history);
    assert c.Some? ==> t.history[c.value] == s.history[c.value];
  }

  lemma NextFields(ttl: int, s: State, op: Op)
    requires FieldsOk(s) && Can(s, op)
    ensures FieldsOk(Next(ttl, s, op))
  {
    if op.Commit? { CommitFields(ttl, s, op.refresh); } else { FieldsKept(s, Next(ttl, s, op), News(ttl, s, op)); }
  }

  lemma Moved(ttl: int, s: State, op: Op)
    requires Inv(ttl, s) && Can(s, op)
    ensures var t, news := Next(ttl, s, op), News(ttl, s, op);
            IsStep(ttl, s, t, news) && (news != [] ==> news[0] in t.history)
  {
    NextIsLater(ttl, s, op);
    NewsIsReflected(ttl, s, op);
    NextFields(ttl, s, op);
    NewsIsJustified(ttl, s, op);
    var t, news := Next(ttl, s, op), News(ttl, s, op);
    if news != [] { assert t.history[|s.history|] == news[0]; }
  }

  /** Sections that move one getter, or none. */
  lemma GetterMoves(ttl: int, s: State, t: State, news: seq<Event>, g: nat)
    requires Inv(ttl, s) && IsStep(ttl, s, t, news)
    requires t.flights == s.flights && t.refreshes == s.refreshes && t.open == s.open
    requires forall k: nat {:trigger GetterOk(t, k)} :: k < |t.getters| && k != g ==>
               k < |s.getters| && t.getters[k] == s.getters[k]
    requires g < |t.getters| ==> GetterOk(t, g)
    ensures Inv(ttl, t)
  {
    SectionKeeps(ttl, s, t, news);
  }

  lemma TickKeeps(ttl: int, s: State, elapsed: nat)
    requires Inv(ttl, s)
    ensures Inv(ttl, Next(ttl, s, Tick(elapsed)))
  {
    Moved(ttl, s, Tick(elapsed));
    GetterMoves(ttl, s, Next(ttl, s, Tick(elapsed)), News(ttl, s, Tick(elapsed)), |s.getters|);
  }

  lemma BeginGetKeeps(ttl: int, s: State)
    requires Inv(ttl, s)
    ensures Inv(ttl, Next(ttl, s, BeginGet))
  {
    Moved(ttl, s, BeginGet);
    assert GetterOk(Next(ttl, s, BeginGet), |s.getters|);
    GetterMoves(ttl, s, Next(ttl, s, BeginGet), News(ttl, s, BeginGet), |s.getters|);
  }

  lemma LookKeeps(ttl: int, s: State, g: nat)
    requires Inv(ttl, s) && Can(s, Op.Look(g))
    ensures Inv(ttl, Next(ttl, s, Op.Look(g)))
  {
    Moved(ttl, s, Op.Look(g));
    assert GetterOk(s, g);
    BeganGrows(s.history, News(ttl, s, Op.Look(g)), g);
    assert GetterOk(Next(ttl, s, Op.Look(g)), g);
    GetterMoves(ttl, s, Next(ttl, s, Op.Look(g)), News(ttl, s, Op.Look(g)), g);
  }

  lemma JoinKeeps(ttl: int, s: State, g: nat)
    requires Inv(ttl, s) && Can(s, Enter(g)) && s.open.Some?
    ensures Inv(ttl, Next(ttl, s, Enter(g)))
  {
    Moved(ttl, s, Enter(g));
    assert GetterOk(s, g);
    BeganGrows(s.history, News(ttl, s, Enter(g)), g);
    assert HasEntered(Next(ttl, s, Enter(g)).history, g, s.open.value);
    GetterMoves(ttl, s, Next(ttl, s, Enter(g)), News(ttl, s, Enter(g)), g);
  }

  lemma CollectKeeps(ttl: int, s: State, g: nat)
    requires Inv(ttl, s) && Can(s, Collect(g))
    ensures Inv(ttl, Next(ttl, s, Collect(g)))
  {
    Moved(ttl, s, Collect(g));
    assert GetterOk(s, g);
    BeganGrows(s.history, News(ttl, s, Collect(g)), g);
    assert GetterOk(Next(ttl, s, Collect(g)), g);
    GetterMoves(ttl, s, Next(ttl, s, Collect(g)), News(ttl, s, Collect(g)), g);
  }

  /** The section that opens a flight, on states that differ as it says. */
  lemma FlightOpens(ttl: int, s: State, t: State, news: seq<Event>, g: nat)
    requires Inv(ttl, s) && IsStep(ttl, s, t, news) && s.open.None?
    requires g < |s.getters| && |t.getters| == |s.getters| && t.refreshes == s.refreshes
    requires forall k: nat :: k < |s.getters| && k != g ==> t.getters[k] == s.getters[k]
    requires t.flights == s.flights + [Rechecking] && t.open == Some(|s.flights|)
    requires GetterOk(t, g) && FlightOk(t, |s.flights|)
    ensures Inv(ttl, t)
  {
    UnfinishedIsOpen(ttl, s);
    SectionKeeps(ttl, s, t, news);
  }

  lemma OpenKeeps(ttl: int, s: State, g: nat)
    requires Inv(ttl, s) && Can(s, Enter(g)) && s.open.None?
    ensures Inv(ttl, Next(ttl, s, Enter(g)))
  {
    var t, news := Next(ttl, s, Enter(g)), News(ttl, s, Enter(g));
    Moved(ttl, s, Enter(g));
    assert GetterOk(s, g);
    BeganGrows(s.history, news, g);
    assert HasEntered(t.history, g, |s.flights|) && HasOpened(t.history, |s.flights|);
    FlightOpens(ttl, s, t, news, g);
  }

  /** Sections that move one flight. */
  lemma FlightMoves(ttl: int, s: State, t: State, news: seq<Event>, f: nat)
    requires Inv(ttl, s) && IsStep(ttl, s, t, news)
    requires f < |s.flights| == |t.flights| && !s.flights[f].Finished? && FlightOk(t, f)
    requires t.getters == s.getters && t.refreshes == s.refreshes
    requires forall k: nat :: k < |s.flights| && k != f ==> t.flights[k] == s.flights[k]
    requires t.open.Some? ==> t.open == s.open && !t.flights[f].Finished?
    requires s.flights[f].Refreshing? ==>
               s.flights[f].refresh < |s.refreshes| && s.refreshes[s.flights[f].refresh].phase.Stored?
    ensures Inv(ttl, t)
  {
    UnfinishedIsOpen(ttl, s);
    SectionKeeps(ttl, s, t, news);
  }

  lemma RecheckHitKeeps(ttl: int, s: State, f: nat)
    requires Inv(ttl, s) && Can(s, Recheck(f)) && Fresh(ttl, s)
    ensures Inv(ttl, Next(ttl, s, Recheck(f)))
  {
    var t := Next(ttl, s, Recheck(f));
    Moved(ttl, s, Recheck(f));
    assert FlightOk(s, f);
    OpenedGrows(s.history, News(ttl, s, Recheck(f)), f);
    assert HasRechecked(t.history, f, s.products);
    FlightMoves(ttl, s, Next(ttl, s, Recheck(f)), News(ttl, s, Recheck(f)), f);
  }

  lemma ResumeKeeps(ttl: int, s: State, f: nat)
    requires Inv(ttl, s) && Can(s, Resume(f))
    ensures Inv(ttl, Next(ttl, s, Resume(f)))
  {
    Moved(ttl, s, Resume(f));
    assert FlightOk(s, f) && RefreshOk(s, s.flights[f].refresh);
    assert Next(ttl, s, Resume(f)).history == s.history;
    FlightMoves(ttl, s, Next(ttl, s, Resume(f)), News(ttl, s, Resume(f)), f);
  }

  lemma PublishKeeps(ttl: int, s: State, f: nat)
    requires Inv(ttl, s) && Can(s, Publish(f))
    ensures Inv(ttl, Next(ttl, s, Publish(f)))
  {
    Moved(ttl, s, Publish(f));
    assert FlightOk(s, f);
    OpenedGrows(s.history, News(ttl, s, Publish(f)), f);
    FlightMoves(ttl, s, Next(ttl, s, Publish(f)), News(ttl, s, Publish(f)), f);
  }

  lemma RecheckMissMoves(ttl: int, s: State, f: nat)
    requires Inv(ttl, s) && Can(s, Recheck(f)) && !Fresh(ttl, s)
    ensures var t, r := Next(ttl, s, Recheck(f)), |s.refreshes|;
            && t.refreshes == s.refreshes + [Refresh(Some(f), Fetching)] && t.flights == s.flights[f := Refreshing(r)]
            && t.getters == s.getters && t.open == s.open && FlightOk(t, f) && RefreshOk(t, r)
  {
    var t, news, r := Next(ttl, s, Recheck(f)), News(ttl, s, Recheck(f)), |s.refreshes|;
    assert news == [FetchStarted(s.now, r, Some(f))] && t.history[|s.history|] == news[0];
    assert FlightOk(s, f);
    OpenedGrows(s.history, news, f);
    assert HasStarted(t.history, r, Some(f));
  }

  /** The section that starts a flight's refresh, on states that differ as it says. */
  lemma FlightStarts(ttl: int, s: State, t: State, news: seq<Event>, f: nat)
    requires Inv(ttl, s) && IsStep(ttl, s, t, news)
    requires f < |s.flights| && s.flights[f] == Rechecking && t.getters == s.getters && t.open == s.open
    requires t.flights == s.flights[f := Refreshing(|s.refreshes|)]
    requires t.refreshes == s.refreshes + [Refresh(Some(f), Fetching)]
    requires FlightOk(t, f) && RefreshOk(t, |s.refreshes|)
    ensures Inv(ttl, t)
  {
    assert FlightOk(s, f);
    SectionKeeps(ttl, s, t, news);
  }

  lemma RecheckMissKeeps(ttl: int, s: State, f: nat)
    requires Inv(ttl, s) && Can(s, Recheck(f)) && !Fresh(ttl, s)
    ensures Inv(ttl, Next(ttl, s, Recheck(f)))
  {
    Moved(ttl, s, Recheck(f));
    RecheckMissMoves(ttl, s, f);
    FlightStarts(ttl, s, Next(ttl, s, Recheck(f)), News(ttl, s, Recheck(f)), f);
  }

  /** Sections that move one refresh. */
  lemma RefreshMoves(ttl: int, s: State, t: State, news: seq<Event>, r: nat)
    requires Inv(ttl, s) && IsStep(ttl, s, t, news)
    requires t.getters == s.getters && t.flights == s.flights && t.open == s.open
    requires forall k: nat :: k < |t.refreshes| && k != r ==> k < |s.refreshes| && t.refreshes[k] == s.refreshes[k]
    requires r < |t.refreshes| ==> RefreshOk(t, r)
    ensures Inv(ttl, t)
  {
    SectionKeeps(ttl, s, t, news);
  }

  lemma BeginRefreshKeeps(ttl: int, s: State)
    requires Inv(ttl, s)
    ensures Inv(ttl, Next(ttl, s, BeginRefresh))
  {
    Moved(ttl, s, BeginRefresh);
    assert HasStarted(Next(ttl, s, BeginRefresh).history, |s.refreshes|, None);
    RefreshMoves(ttl, s, Next(ttl, s, BeginRefresh), News(ttl, s, BeginRefresh), |s.refreshes|);
  }

  lemma FetchReturnKeeps(ttl: int, s: State, r: nat, o: Fetch)
    requires Inv(ttl, s) && Can(s, FetchReturn(r, o))
    ensures Inv(ttl, Next(ttl, s, FetchReturn(r, o)))
  {
    Moved(ttl, s, FetchReturn(r, o));
    assert RefreshOk(s, r);
    RefreshMoves(ttl, s, Next(ttl, s, FetchReturn(r, o)), News(ttl, s, FetchReturn(r, o)), r);
  }

  lemma StampKeeps(ttl: int, s: State, r: nat)
    requires Inv(ttl, s) && Can(s, Stamp(r))
    ensures Inv(ttl, Next(ttl, s, Stamp(r)))
  {
    Moved(ttl, s, Stamp(r));
    assert RefreshOk(s, r);
    assert Next(ttl, s, Stamp(r)).history == s.history;
    RefreshMoves(ttl, s, Next(ttl, s, Stamp(r)), News(ttl, s, Stamp(r)), r);
  }

  lemma CommitKeeps(ttl: int, s: State, r: nat)
    requires Inv(ttl, s) && Can(s, Commit(r))
    ensures Inv(ttl, Next(ttl, s, Commit(r)))
  {
    Moved(ttl, s, Commit(r));
    RefreshMoves(ttl, s, Next(ttl, s, Commit(r)), News(ttl, s, Commit(r)), r);
  }

  lemma NextKeeps(ttl: int, s: State, op: Op)
    requires Inv(ttl, s) && Can(s, op)
    ensures Inv(ttl, Next(ttl, s, op))
  {
    match op
    case Tick(elapsed) => TickKeeps(ttl, s, elapsed);
    case BeginGet => BeginGetKeeps(ttl, s);
    case Look(g) => LookKeeps(ttl, s, g);
    case Enter(g) => if s.open.Some? { JoinKeeps(ttl, s, g); } else { OpenKeeps(ttl, s, g); }
    case Recheck(f) => if Fresh(ttl, s) { RecheckHitKeeps(ttl, s, f); } else { RecheckMissKeeps(ttl, s, f); }
    case BeginRefresh => BeginRefreshKeeps(ttl, s);
    case FetchReturn(r, o) => FetchReturnKeeps(ttl, s, r, o);
    case Stamp(r) => StampKeeps(ttl, s, r);
    case Commit(r) => CommitKeeps(ttl, s, r);
    case Resume(f) => ResumeKeeps(ttl, s, f);
    case Publish(f) => PublishKeeps(ttl, s, f);
    case Collect(g) => CollectKeeps(ttl, s, g);
  }

  // ----------------------------------------------------------- whole runs

  predicate CanRun(ttl: int, s: State, ops: seq<Op>)
    decreases |ops|
  {
    ops == [] || (Can(s, ops[0]) && CanRun(ttl, Next(ttl, s, ops[0]), ops[1..]))
  }

  function Run(ttl: int, s: State, ops: seq<Op>): State
    requires CanRun(ttl, s, ops)
    decreases |ops|
  {
    if ops == [] then s else Run(ttl, Next(ttl, s, ops[0]), ops[1..])
  }

  lemma {:induction false} RunKeeps(ttl: int, s: State, ops: seq<Op>)
    requires Inv(ttl, s) && CanRun(ttl, s, ops)
    ensures Inv(ttl, Run(ttl, s, ops))
    decreases |ops|
  {
    if ops != [] {
      NextKeeps(ttl, s, ops[0]);
      RunKeeps(ttl, Next(ttl, s, ops[0]), ops[1..]);
    }
  }

  lemma EveryRunIsLegal(ttl: int, start: int, ops: seq<Op>)
    requires CanRun(ttl, Init(start), ops)
    ensures Inv(ttl, Run(ttl, Init(start), ops))
  {
    RunKeeps(ttl, Init(start), ops);
  }

  /** In every interleaving the stored list and its time come from one successful fetch: the list
      is what the fetch returned and the time is the clock reading taken after it returned. */
  lemma StoredPairIsOneFetch(ttl: int, start: int, ops: seq<Op>) returns (back: nat, commit: nat)
    requires CanRun(ttl, Init(start), ops) && Run(ttl, Init(start), ops).at.Some?
    ensures var s := Run(ttl, Init(start), ops);
            && back < commit < |s.history| && s.history[commit].Committed?
            && s.history[back] == FetchReturned(s.history[back].time, s.history[commit].refresh, Ok(s.products))
            && s.history[commit].outcome == Ok(s.products) && s.at == Some(s.history[commit].stamp)
            && s.history[back].time <= s.at.value <= s.now
  {
    EveryRunIsLegal(ttl, start, ops);
    var s := Run(ttl, Init(start), ops);
    commit := LastSuccess(s.history).value;
    var e := s.history[commit];
    assert JustifiedAt(ttl, s.history, commit) && Reflected(s, e);
    var started;
    started, back := FetchBehind(ttl, s.history, commit);
  }

  /** In every interleaving a list is served from the cache, to a Get or to a leader, only if the
      last successful refresh stored it and less than `ttl` has passed since. */
  lemma HitsAreFresh(ttl: int, start: int, ops: seq<Op>, n: nat)
    requires CanRun(ttl, Init(start), ops)
    requires var h := Run(ttl, Init(start), ops).history; n < |h| && (h[n].Hit? || h[n].Rechecked?)
    ensures var h := Run(ttl, Init(start), ops).history; ReadsFresh(ttl, h, n, h[n].list)
  {
    EveryRunIsLegal(ttl, start, ops);
    assert JustifiedAt(ttl, Run(ttl, Init(start), ops).history, n);
  }

  /** And always then: in every run a Get, or the leader of its flight, serves the list whenever the
      last successful refresh stored it less than `ttl` ago; otherwise the Get goes on to a flight, and
      the leader starts a fetch. */
  lemma FreshIsServedIff(ttl: int, start: int, ops: seq<Op>, op: Op)
    requires CanRun(ttl, Init(start), ops)
    requires var s := Run(ttl, Init(start), ops); Can(s, op) && (op.Look? || op.Recheck?)
    ensures var s := Run(ttl, Init(start), ops);
            var t, last := Next(ttl, s, op), LastSuccess(s.history);
            if last.None? || Stale(ttl, s.history, s.now) then
              if op.Look? then t.getters[op.getter] == Missed
              else t.flights[op.flight] == Refreshing(|s.refreshes|)
                   && t.refreshes == s.refreshes + [Refresh(Some(op.flight), Fetching)]
            else
              var o := s.history[last.value].outcome;
              if op.Look? then t.getters[op.getter] == Done(o) else t.flights[op.flight] == Answered(o)
  {
    EveryRunIsLegal(ttl, start, ops);
    assert FieldsOk(Run(ttl, Init(start), ops));
  }

  /** In every interleaving the answer of every Get is the list that its own look found, less than
      `ttl` old; or the list that the leader of the flight it entered found, less than `ttl` old; or
      the outcome of the refresh that leader ran because the list was stale: fetched, stamped and
      committed after the flight was opened. */
  lemma GetsAreGrounded(ttl: int, start: int, ops: seq<Op>, g: nat) returns (ground: Ground)
    requires CanRun(ttl, Init(start), ops)
    requires g < |Run(ttl, Init(start), ops).getters| && Run(ttl, Init(start), ops).getters[g].Done?
    ensures var s := Run(ttl, Init(start), ops); Grounds(ttl, s.history, g, s.getters[g].outcome, ground)
  {
    EveryRunIsLegal(ttl, start, ops);
    var s := Run(ttl, Init(start), ops);
    assert GetterOk(s, g);
    ground := EveryGetIsGrounded(ttl, s.history, g, s.getters[g].outcome);
  }

  /** In every reachable state at most one fetch triggered by Get is running. */
  lemma OneGetFetch(ttl: int, start: int, ops: seq<Op>, q: nat, r: nat)
    requires CanRun(ttl, Init(start), ops)
    requires var s := Run(ttl, Init(start), ops);
             && q < |s.refreshes| && s.refreshes[q].flight.Some? && !s.refreshes[q].phase.Stored?
             && r < |s.refreshes| && s.refreshes[r].flight.Some? && !s.refreshes[r].phase.Stored?
    ensures q == r
  {
    EveryRunIsLegal(ttl, start, ops);
    var s := Run(ttl, Init(start), ops);
    assert RefreshOk(s, q) && RefreshOk(s, r);
    assert FlightOk(s, s.refreshes[q].flight.value) && FlightOk(s, s.refreshes[r].flight.value);
  }

  /** Once a refresh was attempted, an empty lastErr means that the list is from the last attempt,
      except when that attempt failed with an empty message at another time than the list's. */
  lemma NoErrorMeansCurrent(ttl: int, start: int, ops: seq<Op>)
    requires CanRun(ttl, Init(start), ops)
    ensures var s := Run(ttl, Init(start), ops); var h := s.history;
            s.lastAttempt.Some? ==>
              && LastCommit(h).Some?
              && var last := h[LastCommit(h).value];
                 && (s.lastErr == "" <==> last.outcome.Ok? || last.outcome.error == "")
                 && ((s.lastErr == "" ==> s.at == s.lastAttempt)
                     <==> last.outcome.Ok? || last.outcome.error != ""
                          || (LastSuccess(h).Some? && h[LastSuccess(h).value].stamp == last.stamp))
  {
    EveryRunIsLegal(ttl, start, ops);
    var s := Run(ttl, Init(start), ops);
    if s.lastAttempt.Some? {
      var k := LastCommit(s.history).value;
      assert s.history[k].outcome.Ok? ==> LastSuccess(s.history) == Some(k);
    }
  }

  /** The exact condition, for every commit in every state: the fields of that moment tell the
      truth unless a refresh failed with an empty message at a time other than the list's. */
  lemma FieldsTellTheTruthIff(ttl: int, s: State, r: nat)
    requires Can(s, Commit(r))
    ensures var t, o := Next(ttl, s, Commit(r)), s.refreshes[r].phase.outcome;
            (t.lastErr == "" ==> t.at == t.lastAttempt)
            <==> o.Ok? || o.error != "" || s.at == Some(s.refreshes[r].phase.stamp)
  {}

  predicate AllCommitsFail(ttl: int, s: State, ops: seq<Op>)
    requires CanRun(ttl, s, ops)
    decreases |ops|
  {
    ops == [] || ((ops[0].Commit? ==> s.refreshes[ops[0].refresh].phase.outcome.Err?)
                  && AllCommitsFail(ttl, Next(ttl, s, ops[0]), ops[1..]))
  }

  /** However many refreshes fail, the list and its time stay as they were. */
  lemma {:induction false} FailuresKeepList(ttl: int, s: State, ops: seq<Op>)
    requires CanRun(ttl, s, ops) && AllCommitsFail(ttl, s, ops)
    ensures Run(ttl, s, ops).products == s.products && Run(ttl, s, ops).at == s.at
    decreases |ops|
  {
    if ops != [] { FailuresKeepList(ttl, Next(ttl, s, ops[0]), ops[1..]); }
  }

  // ---------------------------------------------------------- the freshness panel

  datatype Panel = Panel(cachedAt: Option<int>, lastAttemptAt: Option<int>, lastError: string)

  /** What productsResponse shows: the three reads take the lock one after the other, in the states
      `a`, `b` and `c`; the error of the call itself fills an empty last error. */
  function Shown(a: State, b: State, c: State, error: Option<string>): Panel {
    Panel(a.at, b.lastAttempt, if error.Some? && c.lastErr == "" then error.value else c.lastErr)
  }

  /** No error is shown only with a list from the last attempt. */
  predicate Truthful(p: Panel) { p.lastError == "" ==> p.cachedAt == p.lastAttemptAt }

  predicate Quiet(ops: seq<Op>) { forall i :: 0 <= i < |ops| ==> !ops[i].Commit? }

  lemma {:induction false} QuietKeepsFields(ttl: int, s: State, ops: seq<Op>)
    requires CanRun(ttl, s, ops) && Quiet(ops)
    ensures var t := Run(ttl, s, ops); t.at == s.at && t.lastAttempt == s.lastAttempt && t.lastErr == s.lastErr
    decreases |ops|
  {
    if ops != [] {
      assert Quiet(ops[1..]);
      QuietKeepsFields(ttl, Next(ttl, s, ops[0]), ops[1..]);
    }
  }

  /** Exactly when a panel is truthful that is read after any run, without a commit between its
      reads: there was no attempt, or the last one succeeded, or failed with a message, or the call
      has an error to show, or the failure has the time of the list. */
  lemma QuietPanelIff(ttl: int, start: int, ops: seq<Op>, mid: seq<Op>, late: seq<Op>, error: Option<string>)
    requires CanRun(ttl, Init(start), ops)
    requires var s := Run(ttl, Init(start), ops);
             CanRun(ttl, s, mid) && Quiet(mid) && CanRun(ttl, Run(ttl, s, mid), late) && Quiet(late)
    ensures var s := Run(ttl, Init(start), ops);
            var t := Run(ttl, s, mid);
            Truthful(Shown(s, t, Run(ttl, t, late), error)) <==> LastAttemptSpeaks(s.history, error)
  {
    var s := Run(ttl, Init(start), ops);
    EveryRunIsLegal(ttl, start, ops);
    NoErrorMeansCurrent(ttl, start, ops);
    QuietKeepsFields(ttl, s, mid);
    QuietKeepsFields(ttl, Run(ttl, s, mid), late);
    if LastCommit(s.history).None? { NoCommitNoSuccess(s.history); }
  }

  ghost predicate LastAttemptSpeaks(h: History, error: Option<string>) {
    LastCommit(h).Some? ==>
      var last := h[LastCommit(h).value];
      || last.outcome.Ok? || last.outcome.error != "" || (error.Some? && error.value != "")
      || (LastSuccess(h).Some? && h[LastSuccess(h).value].stamp == last.stamp)
  }

  lemma NoCommitNoSuccess(h: History)
    requires LastCommit(h).None?
    ensures LastSuccess(h).None?
  {}

  // ---------------------------------------------------- the two times, exactly

  /** The list is not newer than the last attempt. */
  predicate Ordered(s: State) { s.at.Some? ==> s.lastAttempt.Some? && s.at.value <= s.lastAttempt.value }

  /** The committing refresh did not fail on a clock reading older than the list's time. */
  predicate CommitsInOrder(s: State, r: nat)
    requires Can(s, Commit(r))
  {
    var phase := s.refreshes[r].phase;
    phase.outcome.Ok? || s.at.None? || s.at.value <= phase.stamp
  }

  /** Every commit decides anew whether the list is newer than the last attempt, and nothing but a
      commit does. */
  lemma OrderedIff(ttl: int, s: State, op: Op)
    requires Can(s, op)
    ensures Ordered(Next(ttl, s, op)) <==> if op.Commit? then CommitsInOrder(s, op.refresh) else Ordered(s)
  {}

  /** In every state of the run, the first and the last included. */
  predicate OrderedThroughout(ttl: int, s: State, ops: seq<Op>)
    requires CanRun(ttl, s, ops)
    decreases |ops|
  {
    Ordered(s) && (ops == [] || OrderedThroughout(ttl, Next(ttl, s, ops[0]), ops[1..]))
  }

  predicate AllCommitInOrder(ttl: int, s: State, ops: seq<Op>)
    requires CanRun(ttl, s, ops)
    decreases |ops|
  {
    ops == [] || ((ops[0].Commit? ==> CommitsInOrder(s, ops[0].refresh))
                  && AllCommitInOrder(ttl, Next(ttl, s, ops[0]), ops[1..]))
  }

  /** Whether the last commit of the run was in order, or `before` when there is none. */
  predicate LastCommitsInOrder(ttl: int, s: State, ops: seq<Op>, before: bool)
    requires CanRun(ttl, s, ops)
    decreases |ops|
  {
    if ops == [] then before
    else LastCommitsInOrder(ttl, Next(ttl, s, ops[0]), ops[1..],
                            if ops[0].Commit? then CommitsInOrder(s, ops[0].refresh) else before)
  }

  lemma {:induction false} OrderedRunIff(ttl: int, s: State, ops: seq<Op>)
    requires CanRun(ttl, s, ops)
    ensures Ordered(s) ==> (OrderedThroughout(ttl, s, ops) <==> AllCommitInOrder(ttl, s, ops))
    ensures Ordered(Run(ttl, s, ops)) <==> LastCommitsInOrder(ttl, s, ops, Ordered(s))
    decreases |ops|
  {
    if ops != [] {
      OrderedIff(ttl, s, ops[0]);
      OrderedRunIff(ttl, Next(ttl, s, ops[0]), ops[1..]);
    }
  }

  /** Exactly when the list is never newer than the last attempt, throughout a run and at its end:
      no refresh, or not the last one, commits a failure whose clock reading is older than the list. */
  lemma RunsAreOrderedIff(ttl: int, start: int, ops: seq<Op>)
    requires CanRun(ttl, Init(start), ops)
    ensures OrderedThroughout(ttl, Init(start), ops) <==> AllCommitInOrder(ttl, Init(start), ops)
    ensures Ordered(Run(ttl, Init(start), ops)) <==> LastCommitsInOrder(ttl, Init(start), ops, true)
  {
    OrderedRunIff(ttl, Init(start), ops);
  }

  predicate NotBefore(a: Option<int>, b: Option<int>) { a.Some? ==> b.Some? && a.value <= b.value }

  /** Neither time goes back. */
  predicate TimesGrow(s: State, t: State) { NotBefore(s.at, t.at) && NotBefore(s.lastAttempt, t.lastAttempt) }

  /** The committing refresh read the clock no earlier than the times it replaces. */
  predicate CommitsForward(s: State, r: nat)
    requires Can(s, Commit(r))
  {
    var phase := s.refreshes[r].phase;
    && (s.lastAttempt.None? || s.lastAttempt.value <= phase.stamp)
    && (phase.outcome.Err? || s.at.None? || s.at.value <= phase.stamp)
  }

  lemma TimesGrowIff(ttl: int, s: State, op: Op)
    requires Can(s, op)
    ensures TimesGrow(s, Next(ttl, s, op)) <==> (op.Commit? ==> CommitsForward(s, op.refresh))
  {}

  /** No section of the run takes a time back. */
  predicate TimesNeverGoBack(ttl: int, s: State, ops: seq<Op>)
    requires CanRun(ttl, s, ops)
    decreases |ops|
  {
    ops == [] || (TimesGrow(s, Next(ttl, s, ops[0])) && TimesNeverGoBack(ttl, Next(ttl, s, ops[0]), ops[1..]))
  }

  predicate AllCommitForward(ttl: int, s: State, ops: seq<Op>)
    requires CanRun(ttl, s, ops)
    decreases |ops|
  {
    ops == [] || ((ops[0].Commit? ==> CommitsForward(s, ops[0].refresh))
                  && AllCommitForward(ttl, Next(ttl, s, ops[0]), ops[1..]))
  }

  /** Exactly when the times are monotone along a run. */
  lemma {:induction false} TimesNeverGoBackIff(ttl: int, s: State, ops: seq<Op>)
    requires CanRun(ttl, s, ops)
    ensures TimesNeverGoBack(ttl, s, ops) <==> AllCommitForward(ttl, s, ops)
    ensures TimesNeverGoBack(ttl, s, ops) ==> TimesGrow(s, Run(ttl, s, ops))
    decreases |ops|
  {
    if ops != [] {
      TimesGrowIff(ttl, s, ops[0]);
      TimesNeverGoBackIff(ttl, Next(ttl, s, ops[0]), ops[1..]);
    }
  }

  // --------------------------------------------- refreshes that do not overlap

  /** A fetch starts only when no other refresh is under way. */
  predicate StartsAlone(ttl: int, s: State, op: Op) {
    Starts(ttl, s, op) ==>
      forall r: nat :: r < |s.refreshes| ==> !Running(s, r)
  }

  predicate RunsApart(ttl: int, s: State, ops: seq<Op>)
    requires CanRun(ttl, s, ops)
    decreases |ops|
  {
    ops == [] || (StartsAlone(ttl, s, ops[0]) && RunsApart(ttl, Next(ttl, s, ops[0]), ops[1..]))
  }

  predicate Running(s: State, r: nat) { r < |s.refreshes| && !s.refreshes[r].phase.Stored? }

  /** At most one refresh is under way, and nothing has committed since it started. */
  ghost predicate OneAtATime(s: State) {
    && Apart(s.history)
    && (forall q: nat, r: nat :: Running(s, q) && Running(s, r) ==> q == r)
    && (forall i: nat, j: nat ::
          i < j < |s.history| && s.history[i].FetchStarted? && s.history[j].Committed?
          ==> !Running(s, s.history[i].refresh))
  }

  lemma ApartAppend(h: History, e: Event)
    requires Apart(h)
    requires e.Committed? ==> forall i: nat, j: nat :: i < j < |h| && h[i].FetchStarted? && h[j].Committed?
                                                       ==> h[i].refresh != e.refresh
    ensures Apart(h + [e])
  {
    var g := h + [e];
    forall i: nat, j: nat, k: nat ensures Clear(g, i, j, k) {
      if i < j < k < |h| {
        assert Clear(h, i, j, k);
        assert g[i] == h[i] && g[j] == h[j] && g[k] == h[k];
      } else if i < j < k == |h| {
        assert g[i] == h[i] && g[j] == h[j];
      }
    }
  }

  predicate Starts(ttl: int, s: State, op: Op) { op.BeginRefresh? || (op.Recheck? && !Fresh(ttl, s)) }

  /** A section makes a refresh running only by starting it. */
  lemma RunningAfter(ttl: int, s: State, op: Op, q: nat)
    requires Can(s, op) && Running(Next(ttl, s, op), q)
    ensures (Running(s, q) && op != Commit(q)) || (Starts(ttl, s, op) && q == |s.refreshes|)
  {}

  lemma StartedBefore(ttl: int, s: State, i: nat)
    requires Inv(ttl, s) && i < |s.history| && s.history[i].FetchStarted?
    ensures s.history[i].refresh < |s.refreshes|
  {
    assert s.history[i] in s.history && Reflected(s, s.history[i]);
  }

  lemma NewEvent(ttl: int, s: State, op: Op)
    requires Can(s, op)
    ensures var t := Next(ttl, s, op);
            t.history == s.history || t.history == s.history + [t.history[|t.history| - 1]]
    ensures var t := Next(ttl, s, op);
            |t.history| > |s.history| && t.history[|s.history|].Committed? ==>
              op.Commit? && t.history[|s.history|].refresh == op.refresh
  {}

  lemma QuietSinceStart(ttl: int, s: State, op: Op, i: nat, j: nat)
    requires Inv(ttl, s) && Can(s, op) && OneAtATime(s)
    requires var h := Next(ttl, s, op).history; i < j < |h| && h[i].FetchStarted? && h[j].Committed?
    ensures var t := Next(ttl, s, op); !Running(t, t.history[i].refresh)
  {
    var t := Next(ttl, s, op);
    NewEvent(ttl, s, op);
    assert t.history[i] == s.history[i];
    var r := s.history[i].refresh;
    StartedBefore(ttl, s, i);
    if op.Commit? { assert Running(s, op.refresh); }
    if j < |s.history| { assert t.history[j] == s.history[j]; }
    if Running(t, r) { RunningAfter(ttl, s, op, r); }
  }

  lemma NextStaysApart(ttl: int, s: State, op: Op)
    requires Inv(ttl, s) && Can(s, op) && OneAtATime(s) && StartsAlone(ttl, s, op)
    ensures OneAtATime(Next(ttl, s, op))
  {
    var t := Next(ttl, s, op);
    NewEvent(ttl, s, op);
    if t.history != s.history { ApartAppend(s.history, t.history[|s.history|]); }
    forall q: nat, r: nat | Running(t, q) && Running(t, r) ensures q == r {
      RunningAfter(ttl, s, op, q);
      RunningAfter(ttl, s, op, r);
    }
    forall i: nat, j: nat | i < j < |t.history| && t.history[i].FetchStarted? && t.history[j].Committed?
      ensures !Running(t, t.history[i].refresh)
    {
      QuietSinceStart(ttl, s, op, i, j);
    }
  }

  lemma {:induction false} RunStaysApart(ttl: int, s: State, ops: seq<Op>)
    requires Inv(ttl, s) && CanRun(ttl, s, ops) && RunsApart(ttl, s, ops) && OneAtATime(s)
    ensures OneAtATime(Run(ttl, s, ops))
    decreases |ops|
  {
    if ops != [] {
      NextKeeps(ttl, s, ops[0]);
      NextStaysApart(ttl, s, ops[0]);
      RunStaysApart(ttl, Next(ttl, s, ops[0]), ops[1..]);
    }
  }

  /** When refreshes do not overlap, the list is never newer than the last attempt. */
  lemma ApartRunsAreOrdered(ttl: int, start: int, ops: seq<Op>)
    requires CanRun(ttl, Init(start), ops) && RunsApart(ttl, Init(start), ops)
    ensures Ordered(Run(ttl, Init(start), ops))
  {
    var s := Run(ttl, Init(start), ops);
    EveryRunIsLegal(ttl, start, ops);
    RunStaysApart(ttl, Init(start), ops);
    if s.at.Some? { SuccessNotAfterAttempt(ttl, s.history); }
  }

  lemma {:induction false} RunExtends(ttl: int, s: State, ops: seq<Op>)
    requires CanRun(ttl, s, ops)
    ensures s.history <= Run(ttl, s, ops).history
    decreases |ops|
  {
    if ops != [] { RunExtends(ttl, Next(ttl, s, ops[0]), ops[1..]); }
  }

  /** When refreshes do not overlap, neither time ever goes back. */
  lemma ApartTimesGrow(ttl: int, start: int, ops: seq<Op>, more: seq<Op>)
    requires CanRun(ttl, Init(start), ops) && RunsApart(ttl, Init(start), ops)
    requires CanRun(ttl, Run(ttl, Init(start), ops), more) && RunsApart(ttl, Run(ttl, Init(start), ops), more)
    ensures var s, t := Run(ttl, Init(start), ops), Run(ttl, Run(ttl, Init(start), ops), more);
            TimesGrow(s, t)
  {
    var s := Run(ttl, Init(start), ops);
    var t := Run(ttl, s, more);
    EveryRunIsLegal(ttl, start, ops);
    RunKeeps(ttl, s, more);
    RunStaysApart(ttl, Init(start), ops);
    RunStaysApart(ttl, s, more);
    RunExtends(ttl, s, more);
    assert t.history[..|s.history|] == s.history;
    if s.at.Some? { SuccessStampGrows(ttl, t.history, |s.history|); }
    if s.lastAttempt.Some? { AttemptStampGrows(ttl, t.history, |s.history|); }
  }

  lemma {:induction false} RunSnoc(ttl: int, s: State, ops: seq<Op>, op: Op)
    requires CanRun(ttl, s, ops) && Can(Run(ttl, s, ops), op)
    ensures CanRun(ttl, s, ops + [op]) && Run(ttl, s, ops + [op]) == Next(ttl, Run(ttl, s, ops), op)
    decreases |ops|
  {
    if ops == [] {
      assert ops + [op] == [op];
      assert [op][1..] == [];
    } else {
      assert (ops + [op])[1..] == ops[1..] + [op];
      RunSnoc(ttl, Next(ttl, s, ops[0]), ops[1..], op);
    }
  }

  /** One more operation at the end of a run from the initial state. */
  lemma Then(ttl: int, ops: seq<Op>, s: State, op: Op) returns (more: seq<Op>, t: State)
    requires CanRun(ttl, Init(0), ops) && s == Run(ttl, Init(0), ops) && Can(s, op)
    ensures more == ops + [op] && CanRun(ttl, Init(0), more)
    ensures t == Run(ttl, Init(0), more) && t == Next(ttl, s, op)
  {
    RunSnoc(ttl, Init(0), ops, op);
    more, t := ops + [op], Next(ttl, s, op);
  }

  /** Two refreshes run; the first has failed and read the clock, but not committed. */
  lemma SlowFailurePending(ttl: int) returns (ops: seq<Op>, s: State)
    ensures CanRun(ttl, Init(0), ops) && s == Run(ttl, Init(0), ops)
    ensures s.now == 0 && s.refreshes == [Refresh(None, Stamped(Err("slow"), 0)), Refresh(None, Fetching)]
  {
    s := Init(0);
    ops, s := Then(ttl, [], s, BeginRefresh);
    ops, s := Then(ttl, ops, s, BeginRefresh);
    assert s.refreshes == [Refresh(None, Fetching), Refresh(None, Fetching)];
    ops, s := Then(ttl, ops, s, FetchReturn(0, Err("slow")));
    ops, s := Then(ttl, ops, s, Stamp(0));
  }

  /** Five ticks later the second one has returned a list. */
  lemma SecondReturned(ttl: int, list: seq<Product>) returns (ops: seq<Op>, s: State)
    ensures CanRun(ttl, Init(0), ops) && s == Run(ttl, Init(0), ops)
    ensures s.now == 5 && s.refreshes == [Refresh(None, Stamped(Err("slow"), 0)), Refresh(None, Fetched(Ok(list)))]
  {
    ops, s := SlowFailurePending(ttl);
    ops, s := Then(ttl, ops, s, Tick(5));
    ops, s := Then(ttl, ops, s, FetchReturn(1, Ok(list)));
  }

  /** It reads the clock. */
  lemma BothPending(ttl: int, list: seq<Product>) returns (ops: seq<Op>, s: State)
    ensures CanRun(ttl, Init(0), ops) && s == Run(ttl, Init(0), ops)
    ensures s.refreshes == [Refresh(None, Stamped(Err("slow"), 0)), Refresh(None, Stamped(Ok(list), 5))]
  {
    ops, s := SecondReturned(ttl, list);
    ops, s := Then(ttl, ops, s, Stamp(1));
  }

  /** Overlapping refreshes can leave a list that is newer than the last attempt: a slow failure
      reads the clock first and commits last, which also takes the attempt's time back. */
  lemma OverlapCanInvert(ttl: int, list: seq<Product>) returns (before: seq<Op>, ops: seq<Op>)
    ensures CanRun(ttl, Init(0), before) && ops == before + [Commit(0)] && CanRun(ttl, Init(0), ops)
    ensures var s := Run(ttl, Init(0), ops);
            s.at == Some(5) && s.lastAttempt == Some(0) && !Ordered(s) && !TimesGrow(Run(ttl, Init(0), before), s)
  {
    var s;
    before, s := BothPending(ttl, list);
    before, s := Then(ttl, before, s, Commit(1));
    ops, s := Then(ttl, before, s, Commit(0));
  }

  /** A direct Refresh at time 0 that has everything but its commit behind it. */
  lemma OnePending(ttl: int, o: Fetch) returns (ops: seq<Op>, s: State)
    ensures CanRun(ttl, Init(0), ops) && s == Run(ttl, Init(0), ops)
    ensures s.refreshes == [Refresh(None, Stamped(o, 0))] && s.at == None
  {
    s := Init(0);
    ops, s := Then(ttl, [], s, BeginRefresh);
    ops, s := Then(ttl, ops, s, FetchReturn(0, o));
    ops, s := Then(ttl, ops, s, Stamp(0));
  }

  /** A fetcher whose error has no text leaves no trace of the failure. The plugin's own fetcher
      always has a text; the cache takes any. */
  lemma PanelCanMislead(ttl: int) returns (ops: seq<Op>)
    ensures CanRun(ttl, Init(0), ops)
    ensures var s := Run(ttl, Init(0), ops); Shown(s, s, s, None) == Panel(None, Some(0), "")
  {
    var s;
    ops, s := OnePending(ttl, Err(""));
    ops, s := Then(ttl, ops, s, Commit(0));
  }

  /** A refresh that succeeds between the first read and the second: the panel shows an attempt, no
      error, and no list. */
  lemma TornPanelMisleads(ttl: int, list: seq<Product>) returns (ops: seq<Op>)
    ensures CanRun(ttl, Init(0), ops)
    ensures var s := Run(ttl, Init(0), ops);
            && s.products == list && s.at == Some(0)
            && Shown(Init(0), s, s, None) == Panel(None, Some(0), "") && !Truthful(Shown(Init(0), s, s, None))
  {
    var s;
    ops, s := OnePending(ttl, Ok(list));
    ops, s := Then(ttl, ops, s, Commit(0));
  }

  // -------------------------------------------------------------- progress

  function GetterWork(g: Getter): nat {
    match g
    case Looking => 9
    case Missed => 8
    case InFlight(_) => 1
    case Done(_) => 0
  }

  function FlightWork(f: Stage): nat {
    match f
    case Rechecking => 6
    case Refreshing(_) => 2
    case Answered(_) => 1
    case Finished(_) => 0
  }

  function RefreshWork(r: Refresh): nat { 3 - Rank(r.phase) }

  /** A bound on the sections still to run before every Get and every Refresh has returned. */
  function Work(s: State): nat {
    Sum(GetterWork, s.getters) + Sum(FlightWork, s.flights) + Sum(RefreshWork, s.refreshes)
  }

  predicate IsSection(op: Op) { !op.Tick? && !op.BeginGet? && !op.BeginRefresh? }

  /** Every section of a running Get or Refresh brings it closer to its end. */
  lemma SectionsFinish(ttl: int, s: State, op: Op)
    requires Can(s, op) && IsSection(op)
    ensures Work(Next(ttl, s, op)) < Work(s)
  {
    if op.Look? || op.Enter? || op.Collect? {
      GetterSectionsFinish(ttl, s, op, op.getter);
    } else if op.Recheck? || op.Resume? || op.Publish? {
      FlightSectionsFinish(ttl, s, op, op.flight);
    } else {
      var r := op.refresh;
      var moved := Next(ttl, s, op).refreshes[r];
      assert Next(ttl, s, op).refreshes == s.refreshes[r := moved];
      SumUpdate(RefreshWork, s.refreshes, r, moved);
    }
  }

  lemma GetterSectionsFinish(ttl: int, s: State, op: Op, g: nat)
    requires Can(s, op) && (op.Look? || op.Enter? || op.Collect?) && g == op.getter
    ensures Work(Next(ttl, s, op)) < Work(s)
  {
    var moved := Next(ttl, s, op).getters[g];
    assert Next(ttl, s, op).getters == s.getters[g := moved];
    SumUpdate(GetterWork, s.getters, g, moved);
    SumAppend(FlightWork, s.flights, Rechecking);
  }

  lemma FlightSectionsFinish(ttl: int, s: State, op: Op, f: nat)
    requires Can(s, op) && (op.Recheck? || op.Resume? || op.Publish?) && f == op.flight
    ensures Work(Next(ttl, s, op)) < Work(s)
  {
    var moved := Next(ttl, s, op).flights[f];
    assert Next(ttl, s, op).flights == s.flights[f := moved];
    SumUpdate(FlightWork, s.flights, f, moved);
    SumAppend(RefreshWork, s.refreshes, Refresh(Some(f), Fetching));
  }

  /** The operation belongs to the Get: it moves the getter, the flight it is in, or the refresh
      that flight waits for. */
  predicate Advances(s: State, op: Op, g: nat)
    requires g < |s.getters|
  {
    var f := s.getters[g];
    match op
    case Look(k) => k == g
    case Enter(k) => k == g
    case Collect(k) => k == g
    case Recheck(k) => f == InFlight(k)
    case Resume(k) => f == InFlight(k)
    case Publish(k) => f == InFlight(k)
    case FetchReturn(r, _) => f.InFlight? && f.flight < |s.flights| && s.flights[f.flight] == Refreshing(r)
    case Stamp(r) => f.InFlight? && f.flight < |s.flights| && s.flights[f.flight] == Refreshing(r)
    case Commit(r) => f.InFlight? && f.flight < |s.flights| && s.flights[f.flight] == Refreshing(r)
    case _ => false
  }

  /** An unfinished Get waits for nothing but a section of its own, of its flight or of that
      flight's refresh, and that section can run. */
  lemma NoDeadlock(ttl: int, s: State, g: nat) returns (op: Op)
    requires Inv(ttl, s) && g < |s.getters| && !s.getters[g].Done?
    ensures Can(s, op) && IsSection(op) && Advances(s, op, g)
  {
    assert GetterOk(s, g);
    match s.getters[g]
    case Looking => op := Op.Look(g);
    case Missed => op := Enter(g);
    case InFlight(f) =>
      assert FlightOk(s, f);
      match s.flights[f] {
        case Rechecking => op := Recheck(f);
        case Refreshing(r) => op := NextOfRefresh(s, f, r);
        case Answered(_) => op := Publish(f);
        case Finished(_) => op := Collect(g);
      }
  }

  function NextOfRefresh(s: State, f: nat, r: nat): Op
    requires r < |s.refreshes|
  {
    match s.refreshes[r].phase
    case Fetching => FetchReturn(r, Err(""))
    case Fetched(_) => Stamp(r)
    case Stamped(_, _) => Commit(r)
    case Stored(_) => Resume(f)
  }

  predicate AllSections(ops: seq<Op>) { forall i :: 0 <= i < |ops| ==> IsSection(ops[i]) }

  predicate AllDone(s: State) { forall g :: 0 <= g < |s.getters| ==> s.getters[g].Done? }

  /** Without new calls a run can only go on for so long, whatever the scheduling. */
  lemma {:induction false} SectionsAreBounded(ttl: int, s: State, ops: seq<Op>)
    requires CanRun(ttl, s, ops) && AllSections(ops)
    ensures |ops| <= Work(s)
    decreases |ops|
  {
    if ops != [] {
      assert IsSection(ops[0]) && AllSections(ops[1..]);
      SectionsFinish(ttl, s, ops[0]);
      SectionsAreBounded(ttl, Next(ttl, s, ops[0]), ops[1..]);
    }
  }

  ghost predicate Stuck(s: State) { forall op {:trigger Can(s, op)} :: IsSection(op) ==> !Can(s, op) }

  /** When no section can run any more, every Get has returned. */
  lemma StuckMeansDone(ttl: int, s: State)
    requires Inv(ttl, s) && Stuck(s)
    ensures AllDone(s)
  {
    if !AllDone(s) {
      var g: nat :| g < |s.getters| && !s.getters[g].Done?;
      var op := NoDeadlock(ttl, s, g);
    }
  }

  /** From every reachable state at most Work sections complete every Get. */
  lemma {:induction false} EveryGetCompletes(ttl: int, s: State) returns (ops: seq<Op>)
    requires Inv(ttl, s)
    ensures CanRun(ttl, s, ops) && AllSections(ops) && |ops| <= Work(s) && AllDone(Run(ttl, s, ops))
    decreases Work(s)
  {
    if AllDone(s) {
      ops := [];
    } else {
      var g: nat :| g < |s.getters| && !s.getters[g].Done?;
      var op := NoDeadlock(ttl, s, g);
      NextKeeps(ttl, s, op);
      SectionsFinish(ttl, s, op);
      var rest := EveryGetCompletes(ttl, Next(ttl, s, op));
      ops := [op] + rest;
      assert ops[1..] == rest;
    }
  }

  // ------------------------------------------------------- the cache object

  /** One method per atomic section; getters, flights and refreshes hold program counters. */
  class ProductCache {
    const ttl: int
    var now: int
    var products: seq<Product>
    var at: Option<int>
    var lastAttempt: Option<int>
    var lastErr: string
    var open: Option<nat>
    var flights: seq<Stage>
    var refreshes: seq<Refresh>
    var getters: seq<Getter>
    ghost var history: History

    ghost function Abs(): State
      reads this
    {
      State(now, products, at, lastAttempt, lastErr, open, flights, refreshes, getters, history)
    }

    ghost predicate Valid()
      reads this
    {
      Inv(ttl, Abs())
    }

    constructor (ttl: int, now: int)
      ensures Valid() && this.ttl == ttl && Abs() == Init(now)
    {
      this.ttl, this.now := ttl, now;
      products, at, lastAttempt, lastErr := [], None, None, "";
      open, flights, refreshes, getters, history := None, [], [], [], [];
    }

    method Advance(elapsed: nat)
      requires Valid()
      modifies this
      ensures Abs() == Next(ttl, old(Abs()), Tick(elapsed)) && Valid()
    {
      NextKeeps(ttl, Abs(), Tick(elapsed));
      now := now + elapsed;
    }

    method BeginGet() returns (g: nat)
      requires Valid()
      modifies this
      ensures Abs() == Next(ttl, old(Abs()), Op.BeginGet) && Valid() && g == |old(getters)|
    {
      NextKeeps(ttl, Abs(), Op.BeginGet);
      g := |getters|;
      getters := getters + [Looking];
      history := history + [Began(now, g)];
    }

    /** The freshness test of Get, under the read lock. */
    method IsFresh() returns (current: bool)
      ensures current == Fresh(ttl, Abs())
    {
      current := at.Some? && now - at.value < ttl;
    }

    method Look(g: nat)
      requires Valid() && Can(Abs(), Op.Look(g))
      modifies this
      ensures Abs() == Next(ttl, old(Abs()), Op.Look(g)) && Valid()
    {
      NextKeeps(ttl, Abs(), Op.Look(g));
      var current := IsFresh();
      if current {
        history := history + [Hit(now, g, products, at.value)];
        getters := getters[g := Done(Ok(products))];
      } else {
        getters := getters[g := Missed];
      }
    }

    method Enter(g: nat)
      requires Valid() && Can(Abs(), Op.Enter(g))
      modifies this
      ensures Abs() == Next(ttl, old(Abs()), Op.Enter(g)) && Valid()
    {
      NextKeeps(ttl, Abs(), Op.Enter(g));
      if open.Some? {
        history := history + [Joined(now, g, open.value)];
        getters := getters[g := InFlight(open.value)];
      } else {
        history := history + [Opened(now, g, |flights|)];
        getters := getters[g := InFlight(|flights|)];
        open := Some(|flights|);
        flights := flights + [Rechecking];
      }
    }

    /** Refresh is entered, by a flight's leader or directly: the upstream fetch starts. */
    method StartRefresh(leads: Option<nat>) returns (r: nat)
      modifies this`refreshes, this`history
      ensures r == |old(refreshes)| && refreshes == old(refreshes) + [Refresh(leads, Fetching)]
      ensures history == old(history) + [FetchStarted(now, r, leads)]
    {
      r := |refreshes|;
      refreshes := refreshes + [Refresh(leads, Fetching)];
      history := history + [FetchStarted(now, r, leads)];
    }

    method Recheck(f: nat)
      requires Valid() && Can(Abs(), Op.Recheck(f))
      modifies this
      ensures Abs() == Next(ttl, old(Abs()), Op.Recheck(f)) && Valid()
    {
      NextKeeps(ttl, Abs(), Op.Recheck(f));
      var current := IsFresh();
      if current {
        history := history + [Rechecked(now, f, products, at.value)];
        flights := flights[f := Answered(Ok(products))];
      } else {
        var r := StartRefresh(Some(f));
        flights := flights[f := Refreshing(r)];
      }
    }

    method BeginRefresh() returns (r: nat)
      requires Valid()
      modifies this
      ensures Abs() == Next(ttl, old(Abs()), Op.BeginRefresh) && Valid() && r == |old(refreshes)|
    {
      NextKeeps(ttl, Abs(), Op.BeginRefresh);
      r := StartRefresh(None);
    }

    method FetchReturn(r: nat, o: Fetch)
      requires Valid() && Can(Abs(), Op.FetchReturn(r, o))
      modifies this
      ensures Abs() == Next(ttl, old(Abs()), Op.FetchReturn(r, o)) && Valid()
    {
      NextKeeps(ttl, Abs(), Op.FetchReturn(r, o));
      refreshes := refreshes[r := refreshes[r].(phase := Fetched(o))];
      history := history + [FetchReturned(now, r, o)];
    }

    /** The clock is read before the lock is taken. */
    method Stamp(r: nat)
      requires Valid() && Can(Abs(), Op.Stamp(r))
      modifies this
      ensures Abs() == Next(ttl, old(Abs()), Op.Stamp(r)) && Valid()
    {
      NextKeeps(ttl, Abs(), Op.Stamp(r));
      refreshes := refreshes[r := refreshes[r].(phase := Stamped(refreshes[r].phase.outcome, now))];
    }

    /** The four fields that the critical section of Refresh sets. */
    method SetFields(o: Fetch, stamp: int)
      modifies this`products, this`at, this`lastAttempt, this`lastErr
      ensures lastAttempt == Some(stamp)
      ensures if o.Err? then lastErr == o.error && products == old(products) && at == old(at)
              else lastErr == "" && products == o.value && at == Some(stamp)
    {
      lastAttempt := Some(stamp);
      if o.Err? {
        lastErr := o.error;
        return;
      }
      lastErr := "";
      products := o.value;
      at := Some(stamp);
    }

    /** The critical section of Refresh. */
    method Commit(r: nat)
      requires Valid() && Can(Abs(), Op.Commit(r))
      modifies this
      ensures Abs() == Next(ttl, old(Abs()), Op.Commit(r)) && Valid()
    {
      ghost var before := Abs();
      var o, stamp := refreshes[r].phase.outcome, refreshes[r].phase.stamp;
      history := history + [Committed(now, r, o, stamp)];
      refreshes := refreshes[r := refreshes[r].(phase := Stored(o))];
      SetFields(o, stamp);
      assert Abs() == Next(ttl, before, Op.Commit(r));
      NextKeeps(ttl, before, Op.Commit(r));
    }

    method Resume(f: nat)
      requires Valid() && Can(Abs(), Op.Resume(f))
      modifies this
      ensures Abs() == Next(ttl, old(Abs()), Op.Resume(f)) && Valid()
    {
      NextKeeps(ttl, Abs(), Op.Resume(f));
      flights := flights[f := Answered(refreshes[flights[f].refresh].phase.outcome)];
    }

    method Publish(f: nat)
      requires Valid() && Can(Abs(), Op.Publish(f))
      modifies this
      ensures Abs() == Next(ttl, old(Abs()), Op.Publish(f)) && Valid()
    {
      NextKeeps(ttl, Abs(), Op.Publish(f));
      history := history + [Closed(now, f, flights[f].outcome)];
      flights := flights[f := Finished(flights[f].outcome)];
      open := None;
    }

    method Collect(g: nat) returns (o: Fetch)
      requires Valid() && Can(Abs(), Op.Collect(g))
      modifies this
      ensures Abs() == Next(ttl, old(Abs()), Op.Collect(g)) && Valid() && getters[g] == Done(o)
    {
      NextKeeps(ttl, Abs(), Op.Collect(g));
      o := flights[getters[g].flight].outcome;
      history := history + [Returned(now, g, getters[g].flight, o)];
      getters := getters[g := Done(o)];
    }
  }
}
