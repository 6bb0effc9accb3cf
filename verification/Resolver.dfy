/** The entitlement resolver as a machine of atomic sections. Any number of goroutines look keys
    up; every interleaving of their sections is a sequence of operations below.

    About singleflight only this is used: joining the open flight of a key or opening one is
    atomic, publishing and removing it is atomic, and every participant gets what it published.
    The clock never goes backwards. */
module Resolver {
  import opened Basics
  import opened LookupTrace

  /** Where a flight's leader is inside the function it runs. */
  datatype Stage =
    | Opening                          // inner check of the negative cache pending
    | Missed                           // inner check missed
    | InCall                           // upstream call running
    | Replied(raw: Outcome)            // negative reply, to be remembered
    | Answered(outcome: Outcome)       // function returned, result to be published
    | Finished(outcome: Outcome)       // published and removed

  datatype Flight = Flight(key: Key, stage: Stage)

  /** Where a lookup call is. */
  datatype Pc =
    | Started                          // outer check pending
    | Unserved                         // outer check missed, flight group not entered yet
    | Served                           // outer check hit, about to return
    | InFlight(flight: nat)
    | Done(outcome: Outcome)

  datatype Caller = Caller(key: Key, pc: Pc)

  datatype State = State(
    now: int,
    negative: map<Key, int>,           // key -> expiry
    open: map<Key, nat>,               // key -> flight
    flights: seq<Flight>,
    callers: seq<Caller>,
    history: History)

  datatype Op =
    | Tick(elapsed: nat)
    | Begin(key: Key)
    | OuterCheck(caller: nat)
    | Enter(caller: nat)
    | InnerCheck(flight: nat)
    | StartCall(flight: nat)
    | FinishCall(flight: nat, raw: Outcome)
    | Remember(flight: nat)
    | Publish(flight: nat)
    | Collect(caller: nat)

  function Init(now: int): State { State(now, map[], map[], [], [], []) }

  predicate CallerAt(s: State, c: nat) { c < |s.callers| }

  predicate FlightAt(s: State, f: nat) { f < |s.flights| }

  /** The operation is the next section of some goroutine. */
  predicate Can(s: State, op: Op) {
    match op
    case Tick(_) => true
    case Begin(_) => true
    case OuterCheck(c) => CallerAt(s, c) && s.callers[c].pc == Started
    case Enter(c) => CallerAt(s, c) && s.callers[c].pc == Unserved
    case InnerCheck(f) => FlightAt(s, f) && s.flights[f].stage == Opening
    case StartCall(f) => FlightAt(s, f) && s.flights[f].stage == Missed
    case FinishCall(f, raw) => FlightAt(s, f) && s.flights[f].stage == InCall && Fits(s.flights[f].key, raw)
    case Remember(f) => FlightAt(s, f) && s.flights[f].stage.Replied?
    case Publish(f) => FlightAt(s, f) && s.flights[f].stage.Answered?
    case Collect(c) =>
      && CallerAt(s, c)
      && (|| s.callers[c].pc.Served?
          || (&& s.callers[c].pc.InFlight? && FlightAt(s, s.callers[c].pc.flight)
              && s.flights[s.callers[c].pc.flight].stage.Finished?))
  }

  /** negativeCached: does an unexpired entry exist, and what is left of the map. */
  function Check(ttl: int, negative: map<Key, int>, now: int, key: Key): (bool, map<Key, int>) {
    if ttl <= 0 || key !in negative then (false, negative)
    else if now > negative[key] then (false, negative - {key})
    else (true, negative)
  }

  function SetCaller(s: State, c: nat, pc: Pc, e: Event): State
    requires CallerAt(s, c)
  {
    s.(callers := s.callers[c := s.callers[c].(pc := pc)], history := s.history + [e])
  }

  function SetFlight(s: State, f: nat, stage: Stage): State
    requires FlightAt(s, f)
  {
    s.(flights := s.flights[f := s.flights[f].(stage := stage)])
  }

  function Log(s: State, e: Event): State { s.(history := s.history + [e]) }

  function Next(ttl: int, s: State, op: Op): State
    requires Can(s, op)
  {
    match op
    case Tick(elapsed) => s.(now := s.now + elapsed)
    case Begin(key) =>
      Log(s.(callers := s.callers + [Caller(key, Started)]), Began(|s.callers|, key))
    case OuterCheck(c) =>
      var key := s.callers[c].key;
      var (hit, rest) := Check(ttl, s.negative, s.now, key);
      if hit then SetCaller(s, c, Pc.Served, Event.Served(c, key, s.now))
      else s.(negative := rest, callers := s.callers[c := Caller(key, Unserved)])
    case Enter(c) =>
      var key := s.callers[c].key;
      if key in s.open then SetCaller(s, c, InFlight(s.open[key]), Joined(c, s.open[key], key))
      else
        var f := |s.flights|;
        SetCaller(s, c, InFlight(f), Opened(c, f, key))
          .(open := s.open[key := f], flights := s.flights + [Flight(key, Opening)])
    case InnerCheck(f) =>
      var key := s.flights[f].key;
      var (hit, rest) := Check(ttl, s.negative, s.now, key);
      if hit then Log(SetFlight(s, f, Answered(Ok(Nothing(key)))), Rechecked(f, key, s.now))
      else SetFlight(s, f, Missed).(negative := rest)
    case StartCall(f) => Log(SetFlight(s, f, InCall), CallStarted(f, s.flights[f].key, s.now))
    case FinishCall(f, raw) =>
      var key := s.flights[f].key;
      var stage := if raw.Ok? && IsNegative(raw.value) then Replied(raw) else Answered(Published(key, raw));
      Log(SetFlight(s, f, stage), CallReturned(f, key, raw))
    case Remember(f) =>
      var key := s.flights[f].key;
      var t := SetFlight(s, f, Answered(Published(key, s.flights[f].stage.raw)));
      if ttl <= 0 then t
      else Log(t.(negative := s.negative[key := s.now + ttl]), Recorded(f, key, s.now))
    case Publish(f) =>
      var key, o := s.flights[f].key, s.flights[f].stage.outcome;
      Log(SetFlight(s, f, Finished(o)).(open := s.open - {key}), Closed(f, key, o))
    case Collect(c) =>
      var key := s.callers[c].key;
      var o := if s.callers[c].pc.Served? then Ok(Nothing(key)) else s.flights[s.callers[c].pc.flight].stage.outcome;
      SetCaller(s, c, Done(o), Returned(c, key, o))
  }

  // ------------------------------------------------------------ invariant

  function Rank(stage: Stage): nat {
    match stage
    case Opening => 0
    case Missed => 1
    case InCall => 2
    case Replied(_) => 3
    case Answered(_) => 4
    case Finished(_) => 5
  }

  predicate FlightPast(s: State, f: nat, key: Key, rank: nat) {
    FlightAt(s, f) && s.flights[f].key == key && Rank(s.flights[f].stage) >= rank
  }

  /** What an event in the history says about the current state. */
  predicate Reflected(ttl: int, s: State, e: Event) {
    match e
    case Began(c, key) => CallerAt(s, c)
    case Opened(_, f, key) => FlightPast(s, f, key, 0)
    case Rechecked(f, key, _) => FlightPast(s, f, key, 4)
    case CallStarted(f, key, at) => FlightPast(s, f, key, 2) && at <= s.now
    case CallReturned(f, key, _) => FlightPast(s, f, key, 3)
    case Recorded(f, key, r) =>
      && ttl > 0 && FlightPast(s, f, key, 4) && r <= s.now
      && (r + ttl < s.now || (key in s.negative && r + ttl <= s.negative[key]))
    case Closed(f, key, o) => FlightPast(s, f, key, 5) && s.flights[f].stage == Finished(o)
    case Served(_, _, _) => true
    case Joined(_, _, _) => true
    case Returned(_, _, _) => true
  }

  /** What the history holds about a flight. */
  ghost predicate FlightOk(ttl: int, s: State, f: nat)
    requires FlightAt(s, f)
  {
    var key, h := s.flights[f].key, s.history;
    && HasOpened(h, f, key)
    && (!s.flights[f].stage.Finished? ==> key in s.open && s.open[key] == f)
    && match s.flights[f].stage
       case Opening => true
       case Missed => AllExpired(ttl, h, key, s.now)
       case InCall => HasCalled(h, f, key)
       case Replied(raw) => HasCalled(h, f, key) && CallReturned(f, key, raw) in h && raw.Ok? && IsNegative(raw.value)
       case Answered(o) =>
         || (HasRechecked(h, f, key) && o == Ok(Nothing(key)))
         || (exists raw :: CallReturned(f, key, raw) in h && o == Published(key, raw) && Settled(ttl, h, f, key, raw))
       case Finished(o) => Closed(f, key, o) in h
  }

  ghost predicate HasServed(h: History, c: nat, key: Key) {
    exists t :: Event.Served(c, key, t) in h
  }

  ghost predicate CallerOk(s: State, c: nat)
    requires CallerAt(s, c)
  {
    var key := s.callers[c].key;
    && Began(c, key) in s.history
    && (s.callers[c].pc.Served? ==> HasServed(s.history, c, key))
    && (s.callers[c].pc.InFlight? ==>
          && FlightPast(s, s.callers[c].pc.flight, key, 0)
          && Entered(s.history, c, s.callers[c].pc.flight, key))
    && (s.callers[c].pc.Done? ==> Returned(c, key, s.callers[c].pc.outcome) in s.history)
  }

  ghost predicate NegativeOk(ttl: int, s: State, key: Key)
    requires key in s.negative
  {
    ttl > 0 && exists f, r :: Recorded(f, key, r) in s.history && r <= s.now && s.negative[key] == r + ttl
  }

  predicate OpenOk(s: State, key: Key)
    requires key in s.open
  {
    FlightPast(s, s.open[key], key, 0) && !s.flights[s.open[key]].stage.Finished?
  }

  ghost predicate Inv(ttl: int, s: State) {
    && Legal(ttl, s.history)
    && (forall e {:trigger Reflected(ttl, s, e)} :: e in s.history ==> Reflected(ttl, s, e))
    && (forall f: nat {:trigger FlightOk(ttl, s, f)} :: FlightAt(s, f) ==> FlightOk(ttl, s, f))
    && (forall c: nat {:trigger CallerOk(s, c)} :: CallerAt(s, c) ==> CallerOk(s, c))
    && (forall key {:trigger NegativeOk(ttl, s, key)} :: key in s.negative ==> NegativeOk(ttl, s, key))
    && (forall key {:trigger OpenOk(s, key)} :: key in s.open ==> OpenOk(s, key))
  }

  // ------------------------------------------- every section keeps it

  /** `t` is a later state: flights only advance, nothing observed is lost, and entries whose
      recording is unexpired stay. */
  ghost predicate Later(s: State, t: State) {
    && s.now <= t.now && |s.callers| <= |t.callers| && |s.flights| <= |t.flights|
    && (forall f: nat :: FlightAt(s, f) ==>
          && FlightPast(t, f, s.flights[f].key, Rank(s.flights[f].stage))
          && (s.flights[f].stage.Finished? ==> t.flights[f] == s.flights[f]))
    && (forall key :: key in s.negative && key !in t.negative ==> s.negative[key] < t.now)
    && (forall key :: key in s.negative && key in t.negative ==> s.negative[key] <= t.negative[key])
  }

  lemma ReflectedLater(ttl: int, s: State, t: State, e: Event)
    requires Reflected(ttl, s, e) && Later(s, t)
    ensures Reflected(ttl, t, e)
  {
    match e
    case Opened(_, f, _) => assert FlightAt(s, f);
    case Rechecked(f, _, _) => assert FlightAt(s, f);
    case CallStarted(f, _, _) => assert FlightAt(s, f);
    case CallReturned(f, _, _) => assert FlightAt(s, f);
    case Recorded(f, _, _) => assert FlightAt(s, f);
    case Closed(f, _, _) => assert FlightAt(s, f);
    case _ =>
  }

  /** `t` has observed what `s` has, and possibly the one event in `news`. */
  ghost predicate Observes(s: State, t: State, news: seq<Event>) {
    |news| <= 1 && t.history == s.history + news
  }

  lemma HistoryGrows(h: History, news: seq<Event>, f: nat, key: Key)
    ensures HasOpened(h, f, key) ==> HasOpened(h + news, f, key)
    ensures HasCalled(h, f, key) ==> HasCalled(h + news, f, key)
    ensures HasRechecked(h, f, key) ==> HasRechecked(h + news, f, key)
    ensures HasRecorded(h, f, key) ==> HasRecorded(h + news, f, key)
  {
    if HasOpened(h, f, key) { var c :| Opened(c, f, key) in h; assert Opened(c, f, key) in h + news; }
    if HasCalled(h, f, key) { var c :| CallStarted(f, key, c) in h; assert CallStarted(f, key, c) in h + news; }
    if HasRechecked(h, f, key) { var c :| Rechecked(f, key, c) in h; assert Rechecked(f, key, c) in h + news; }
    if HasRecorded(h, f, key) { var c :| Recorded(f, key, c) in h; assert Recorded(f, key, c) in h + news; }
  }

  /** A flight that did not move, and whose key got no new negative while it was between its
      inner check and its call. */
  lemma FlightKept(ttl: int, s: State, t: State, news: seq<Event>, f: nat)
    requires FlightAt(s, f) && FlightAt(t, f) && t.flights[f] == s.flights[f] && FlightOk(ttl, s, f)
    requires Observes(s, t, news) && s.now <= t.now
    requires !s.flights[f].stage.Finished? ==> s.flights[f].key in t.open && t.open[s.flights[f].key] == f
    requires s.flights[f].stage == Missed ==>
               forall e :: e in news ==> !(e.Recorded? && e.key == s.flights[f].key)
    ensures FlightOk(ttl, t, f)
  {
    var key := s.flights[f].key;
    HistoryGrows(s.history, news, f, key);
    if s.flights[f].stage.Answered? {
      var o := s.flights[f].stage.outcome;
      if !(HasRechecked(s.history, f, key) && o == Ok(Nothing(key))) {
        var raw :| CallReturned(f, key, raw) in s.history && o == Published(key, raw)
                   && Settled(ttl, s.history, f, key, raw);
        assert CallReturned(f, key, raw) in t.history;
      }
    }
  }

  lemma NegativeKept(ttl: int, s: State, t: State, news: seq<Event>, key: Key)
    requires key in s.negative && key in t.negative && t.negative[key] == s.negative[key]
    requires NegativeOk(ttl, s, key) && Observes(s, t, news) && s.now <= t.now
    ensures NegativeOk(ttl, t, key)
  {
    var f, r :| Recorded(f, key, r) in s.history && r <= s.now && s.negative[key] == r + ttl;
    assert Recorded(f, key, r) in t.history;
  }

  /** The part of the invariant that no section can break by itself. */
  lemma Kept(ttl: int, s: State, t: State, news: seq<Event>)
    requires Inv(ttl, s) && Later(s, t) && Observes(s, t, news)
    requires news != [] ==> Justified(ttl, s.history, news[0]) && Reflected(ttl, t, news[0])
    ensures Legal(ttl, t.history)
    ensures forall e {:trigger Reflected(ttl, t, e)} :: e in t.history ==> Reflected(ttl, t, e)
    ensures forall key :: key in s.negative && key in t.negative && t.negative[key] == s.negative[key]
                          ==> NegativeOk(ttl, t, key)
    ensures forall c: nat :: CallerAt(s, c) && t.callers[c] == s.callers[c] ==> CallerOk(t, c)
  {
    if news == [] {
      assert t.history == s.history;
    } else {
      assert news == [news[0]];
      LegalAppend(ttl, s.history, news[0]);
    }
    forall e | e in t.history ensures Reflected(ttl, t, e) {
      if e in s.history { ReflectedLater(ttl, s, t, e); }
    }
    forall key | key in s.negative && key in t.negative && t.negative[key] == s.negative[key]
      ensures NegativeOk(ttl, t, key)
    {
      NegativeKept(ttl, s, t, news, key);
    }
    forall c: nat | CallerAt(s, c) && t.callers[c] == s.callers[c] ensures CallerOk(t, c) {
      assert CallerOk(s, c);
      if s.callers[c].pc.InFlight? { assert FlightAt(s, s.callers[c].pc.flight); }
      if s.callers[c].pc.Served? {
        var at :| Event.Served(c, s.callers[c].key, at) in s.history;
        assert Event.Served(c, s.callers[c].key, at) in t.history;
      }
    }
  }

  /** Flights other than `moved` that did not change keep their part of the invariant. */
  lemma OthersKept(ttl: int, s: State, t: State, news: seq<Event>, moved: nat)
    requires Inv(ttl, s) && s.now <= t.now && Observes(s, t, news) && |s.flights| <= |t.flights|
    requires forall f: nat :: FlightAt(s, f) && f != moved ==> t.flights[f] == s.flights[f]
    requires forall f: nat :: FlightAt(s, f) && f != moved && !s.flights[f].stage.Finished?
               ==> s.flights[f].key in t.open && t.open[s.flights[f].key] == f
    requires news != [] && news[0].Recorded? ==>
               moved < |s.flights| && news[0].key == s.flights[moved].key && !s.flights[moved].stage.Finished?
    ensures forall f: nat {:trigger FlightOk(ttl, t, f)} :: FlightAt(s, f) && f != moved ==> FlightOk(ttl, t, f)
  {
    forall f: nat | FlightAt(s, f) && f != moved ensures FlightOk(ttl, t, f) {
      assert FlightOk(ttl, s, f);
      if news != [] && news[0].Recorded? { assert FlightOk(ttl, s, moved); }
      FlightKept(ttl, s, t, news, f);
    }
  }

  /** Every unfinished flight is the open one of its key. */
  lemma UnfinishedAreOpen(ttl: int, s: State)
    requires Inv(ttl, s)
    ensures forall f: nat :: FlightAt(s, f) && !s.flights[f].stage.Finished?
              ==> s.flights[f].key in s.open && s.open[s.flights[f].key] == f
  {
    forall f: nat | FlightAt(s, f) && !s.flights[f].stage.Finished?
      ensures s.flights[f].key in s.open && s.open[s.flights[f].key] == f
    {
      assert FlightOk(ttl, s, f);
    }
  }

  lemma TickKeeps(ttl: int, s: State, elapsed: nat)
    requires Inv(ttl, s)
    ensures Inv(ttl, Next(ttl, s, Tick(elapsed)))
  {
    var t := Next(ttl, s, Tick(elapsed));
    assert t.history == s.history + [];
    Kept(ttl, s, t, []);
    forall f: nat | FlightAt(s, f) ensures FlightOk(ttl, t, f) { FlightKept(ttl, s, t, [], f); }
    forall key | key in t.open ensures OpenOk(t, key) { assert OpenOk(s, key); }
  }

  lemma BeginKeeps(ttl: int, s: State, key: Key)
    requires Inv(ttl, s)
    ensures Inv(ttl, Next(ttl, s, Begin(key)))
  {
    var t, c := Next(ttl, s, Begin(key)), |s.callers|;
    var e := Began(c, key);
    forall k ensures Began(c, k) !in s.history {
      assert Began(c, k) in s.history ==> Reflected(ttl, s, Began(c, k));
    }
    Kept(ttl, s, t, [e]);
    forall f: nat | FlightAt(s, f) ensures FlightOk(ttl, t, f) { FlightKept(ttl, s, t, [e], f); }
    forall k | k in t.open ensures OpenOk(t, k) { assert OpenOk(s, k); }
  }

  /** What a hit and a miss of the negative cache mean for the recorded negatives. */
  lemma CheckMeaning(ttl: int, s: State, key: Key)
    requires Inv(ttl, s)
    ensures var (hit, rest) := Check(ttl, s.negative, s.now, key);
            if hit then rest == s.negative && FreshNegative(ttl, s.history, key, s.now)
            else AllExpired(ttl, s.history, key, s.now) && Later(s, s.(negative := rest))
                 && forall k :: k in rest ==> k in s.negative && rest[k] == s.negative[k]
  {
    var (hit, rest) := Check(ttl, s.negative, s.now, key);
    if hit {
      assert NegativeOk(ttl, s, key);
      var f, r :| Recorded(f, key, r) in s.history && r <= s.now && s.negative[key] == r + ttl;
    } else {
      forall f, r | Recorded(f, key, r) in s.history ensures r + ttl < s.now {
        assert Reflected(ttl, s, Recorded(f, key, r));
      }
    }
  }

  lemma OuterCheckKeeps(ttl: int, s: State, c: nat)
    requires Inv(ttl, s) && Can(s, OuterCheck(c))
    ensures Inv(ttl, Next(ttl, s, OuterCheck(c)))
  {
    var t, key := Next(ttl, s, OuterCheck(c)), s.callers[c].key;
    CheckMeaning(ttl, s, key);
    assert CallerOk(s, c);
    var news := if Check(ttl, s.negative, s.now, key).0 then [Event.Served(c, key, s.now)] else [];
    assert Observes(s, t, news);
    Kept(ttl, s, t, news);
    forall f: nat | FlightAt(s, f) ensures FlightOk(ttl, t, f) { FlightKept(ttl, s, t, news, f); }
    forall k | k in t.open ensures OpenOk(t, k) { assert OpenOk(s, k); }
    if news != [] { assert news[0] in t.history; }
    assert CallerOk(t, c);
  }

  lemma EnterKeeps(ttl: int, s: State, c: nat)
    requires Inv(ttl, s) && Can(s, Enter(c))
    ensures Inv(ttl, Next(ttl, s, Enter(c)))
  {
    if s.callers[c].key in s.open { JoinKeeps(ttl, s, c); } else { OpenKeeps(ttl, s, c); }
  }

  lemma JoinKeeps(ttl: int, s: State, c: nat)
    requires Inv(ttl, s) && Can(s, Enter(c)) && s.callers[c].key in s.open
    ensures Inv(ttl, Next(ttl, s, Enter(c)))
  {
    var t, key := Next(ttl, s, Enter(c)), s.callers[c].key;
    var f := s.open[key];
    var e := Joined(c, f, key);
    assert CallerOk(s, c) && OpenOk(s, key) && FlightOk(ttl, s, f);
    NotClosed(ttl, s, f);
    Kept(ttl, s, t, [e]);
    forall g: nat | FlightAt(s, g) ensures FlightOk(ttl, t, g) { FlightKept(ttl, s, t, [e], g); }
    forall k | k in t.open ensures OpenOk(t, k) { assert OpenOk(s, k); }
    assert e in t.history && CallerOk(t, c);
  }

  lemma OpenKeeps(ttl: int, s: State, c: nat)
    requires Inv(ttl, s) && Can(s, Enter(c)) && s.callers[c].key !in s.open
    ensures Inv(ttl, Next(ttl, s, Enter(c)))
  {
    var t, key, f := Next(ttl, s, Enter(c)), s.callers[c].key, |s.flights|;
    var e := Opened(c, f, key);
    assert CallerOk(s, c);
    NoneActive(ttl, s, key);
    Kept(ttl, s, t, [e]);
    UnfinishedAreOpen(ttl, s);
    OthersKept(ttl, s, t, [e], f);
    assert e in t.history;
    assert HasOpened(t.history, f, key) && FlightOk(ttl, t, f);
    forall k | k in t.open ensures OpenOk(t, k) { if k in s.open { assert OpenOk(s, k); } }
    assert CallerOk(t, c);
  }

  lemma NotClosed(ttl: int, s: State, f: nat)
    requires Inv(ttl, s) && FlightAt(s, f) && !s.flights[f].stage.Finished?
    ensures Active(s.history, f, s.flights[f].key)
  {
    var key := s.flights[f].key;
    assert FlightOk(ttl, s, f);
    forall o ensures Closed(f, key, o) !in s.history {
      assert Closed(f, key, o) in s.history ==> Reflected(ttl, s, Closed(f, key, o));
    }
  }

  /** No flight of a key without an open entry is active, and the next flight number is new. */
  lemma NoneActive(ttl: int, s: State, key: Key)
    requires Inv(ttl, s) && key !in s.open
    ensures forall g :: !Active(s.history, g, key)
    ensures forall k :: !HasOpened(s.history, |s.flights|, k)
  {
    forall g: nat ensures !Active(s.history, g, key) {
      if HasOpened(s.history, g, key) {
        var d :| Opened(d, g, key) in s.history;
        assert Reflected(ttl, s, Opened(d, g, key));
        assert FlightOk(ttl, s, g);
      }
    }
    forall d: nat, k ensures Opened(d, |s.flights|, k) !in s.history {
      assert Opened(d, |s.flights|, k) in s.history ==> Reflected(ttl, s, Opened(d, |s.flights|, k));
    }
  }

  /** What the leader of a flight has not done yet. */
  lemma NotYet(ttl: int, s: State, f: nat)
    requires Inv(ttl, s) && FlightAt(s, f)
    ensures var key, rank := s.flights[f].key, Rank(s.flights[f].stage);
            && (rank < 2 ==> !HasCalled(s.history, f, key))
            && (rank < 3 ==> !HasReturned(s.history, f, key))
            && (rank < 4 ==> !HasRechecked(s.history, f, key) && !HasRecorded(s.history, f, key))
  {
    var key, rank, h := s.flights[f].key, Rank(s.flights[f].stage), s.history;
    forall t ensures CallStarted(f, key, t) in h ==> rank >= 2 {
      assert CallStarted(f, key, t) in h ==> Reflected(ttl, s, CallStarted(f, key, t));
    }
    forall o ensures CallReturned(f, key, o) in h ==> rank >= 3 {
      assert CallReturned(f, key, o) in h ==> Reflected(ttl, s, CallReturned(f, key, o));
    }
    forall t ensures Rechecked(f, key, t) in h ==> rank >= 4 {
      assert Rechecked(f, key, t) in h ==> Reflected(ttl, s, Rechecked(f, key, t));
    }
    forall t ensures Recorded(f, key, t) in h ==> rank >= 4 {
      assert Recorded(f, key, t) in h ==> Reflected(ttl, s, Recorded(f, key, t));
    }
  }

  lemma InnerCheckKeeps(ttl: int, s: State, f: nat)
    requires Inv(ttl, s) && Can(s, InnerCheck(f))
    ensures Inv(ttl, Next(ttl, s, InnerCheck(f)))
  {
    var t, key := Next(ttl, s, InnerCheck(f)), s.flights[f].key;
    CheckMeaning(ttl, s, key);
    NotClosed(ttl, s, f);
    NotYet(ttl, s, f);
    var hit := Check(ttl, s.negative, s.now, key).0;
    var news := if hit then [Rechecked(f, key, s.now)] else [];
    assert Observes(s, t, news);
    assert FlightOk(ttl, s, f);
    Kept(ttl, s, t, news);
    UnfinishedAreOpen(ttl, s);
    OthersKept(ttl, s, t, news, f);
    HistoryGrows(s.history, news, f, key);
    if hit { assert news[0] in t.history; }
    assert FlightOk(ttl, t, f);
    forall k | k in t.open ensures OpenOk(t, k) { assert OpenOk(s, k); }
  }

  lemma StartCallKeeps(ttl: int, s: State, f: nat)
    requires Inv(ttl, s) && Can(s, StartCall(f))
    ensures Inv(ttl, Next(ttl, s, StartCall(f)))
  {
    var t, key := Next(ttl, s, StartCall(f)), s.flights[f].key;
    var e := CallStarted(f, key, s.now);
    NotClosed(ttl, s, f);
    NotYet(ttl, s, f);
    assert FlightOk(ttl, s, f);
    Kept(ttl, s, t, [e]);
    UnfinishedAreOpen(ttl, s);
    OthersKept(ttl, s, t, [e], f);
    HistoryGrows(s.history, [e], f, key);
    assert e in t.history;
    assert FlightOk(ttl, t, f);
    forall k | k in t.open ensures OpenOk(t, k) { assert OpenOk(s, k); }
  }

  lemma FinishCallKeeps(ttl: int, s: State, f: nat, raw: Outcome)
    requires Inv(ttl, s) && Can(s, FinishCall(f, raw))
    ensures Inv(ttl, Next(ttl, s, FinishCall(f, raw)))
  {
    var t, key := Next(ttl, s, FinishCall(f, raw)), s.flights[f].key;
    var e := CallReturned(f, key, raw);
    NotClosed(ttl, s, f);
    NotYet(ttl, s, f);
    assert FlightOk(ttl, s, f);
    Kept(ttl, s, t, [e]);
    UnfinishedAreOpen(ttl, s);
    OthersKept(ttl, s, t, [e], f);
    HistoryGrows(s.history, [e], f, key);
    assert e in t.history;
    assert FlightOk(ttl, t, f);
    forall k | k in t.open ensures OpenOk(t, k) { assert OpenOk(s, k); }
  }

  lemma RememberKeeps(ttl: int, s: State, f: nat)
    requires Inv(ttl, s) && Can(s, Remember(f))
    ensures Inv(ttl, Next(ttl, s, Remember(f)))
  {
    var t, key := Next(ttl, s, Remember(f)), s.flights[f].key;
    var news := if ttl <= 0 then [] else [Recorded(f, key, s.now)];
    RememberLater(ttl, s, f);
    assert Observes(s, t, news);
    RememberKept(ttl, s, f, t, news);
    RememberedFlight(ttl, s, f);
    RememberOthers(ttl, s, f, t, news);
  }

  lemma RememberKept(ttl: int, s: State, f: nat, t: State, news: seq<Event>)
    requires Inv(ttl, s) && Can(s, Remember(f)) && t == Next(ttl, s, Remember(f)) && Later(s, t)
    requires news == if ttl <= 0 then [] else [Recorded(f, s.flights[f].key, s.now)]
    ensures Legal(ttl, t.history)
    ensures forall e {:trigger Reflected(ttl, t, e)} :: e in t.history ==> Reflected(ttl, t, e)
    ensures forall key :: key in t.negative ==> NegativeOk(ttl, t, key)
    ensures forall c: nat :: CallerAt(t, c) ==> CallerOk(t, c)
  {
    var key := s.flights[f].key;
    if ttl > 0 { RememberJustified(ttl, s, f); }
    assert Observes(s, t, news);
    Kept(ttl, s, t, news);
    if ttl > 0 { assert Recorded(f, key, s.now) in t.history && NegativeOk(ttl, t, key); }
  }

  lemma RememberOthers(ttl: int, s: State, f: nat, t: State, news: seq<Event>)
    requires Inv(ttl, s) && Can(s, Remember(f)) && t == Next(ttl, s, Remember(f))
    requires news == if ttl <= 0 then [] else [Recorded(f, s.flights[f].key, s.now)]
    ensures forall g: nat {:trigger FlightOk(ttl, t, g)} :: FlightAt(t, g) && g != f ==> FlightOk(ttl, t, g)
    ensures forall k :: k in t.open ==> OpenOk(t, k)
  {
    assert Observes(s, t, news);
    UnfinishedAreOpen(ttl, s);
    OthersKept(ttl, s, t, news, f);
    forall k | k in t.open ensures OpenOk(t, k) { assert OpenOk(s, k); }
  }

  lemma RememberLater(ttl: int, s: State, f: nat)
    requires Inv(ttl, s) && Can(s, Remember(f))
    ensures Later(s, Next(ttl, s, Remember(f)))
  {
    var key := s.flights[f].key;
    if key in s.negative { assert NegativeOk(ttl, s, key); }
  }

  lemma RememberJustified(ttl: int, s: State, f: nat)
    requires Inv(ttl, s) && Can(s, Remember(f)) && ttl > 0
    ensures Justified(ttl, s.history, Recorded(f, s.flights[f].key, s.now))
  {
    var key := s.flights[f].key;
    NotClosed(ttl, s, f);
    NotYet(ttl, s, f);
    assert FlightOk(ttl, s, f);
    var at :| CallStarted(f, key, at) in s.history;
    assert Reflected(ttl, s, CallStarted(f, key, at));
  }

  lemma RememberedFlight(ttl: int, s: State, f: nat)
    requires Inv(ttl, s) && Can(s, Remember(f))
    ensures FlightOk(ttl, Next(ttl, s, Remember(f)), f)
  {
    var t, key, raw := Next(ttl, s, Remember(f)), s.flights[f].key, s.flights[f].stage.raw;
    assert FlightOk(ttl, s, f);
    HistoryGrows(s.history, if ttl <= 0 then [] else [Recorded(f, key, s.now)], f, key);
    assert t.history == s.history + if ttl <= 0 then [] else [Recorded(f, key, s.now)];
    assert CallReturned(f, key, raw) in t.history;
  }

  lemma PublishKeeps(ttl: int, s: State, f: nat)
    requires Inv(ttl, s) && Can(s, Publish(f))
    ensures Inv(ttl, Next(ttl, s, Publish(f)))
  {
    var t, key := Next(ttl, s, Publish(f)), s.flights[f].key;
    var e := Closed(f, key, s.flights[f].stage.outcome);
    PublishJustified(ttl, s, f);
    Kept(ttl, s, t, [e]);
    PublishLeavesOpen(ttl, s, f);
    OthersKept(ttl, s, t, [e], f);
    HistoryGrows(s.history, [e], f, key);
    assert FlightOk(ttl, s, f) && e in t.history;
    assert FlightOk(ttl, t, f);
  }

  lemma PublishJustified(ttl: int, s: State, f: nat)
    requires Inv(ttl, s) && Can(s, Publish(f))
    ensures Justified(ttl, s.history, Closed(f, s.flights[f].key, s.flights[f].stage.outcome))
  {
    NotClosed(ttl, s, f);
    assert FlightOk(ttl, s, f);
  }

  lemma PublishLeavesOpen(ttl: int, s: State, f: nat)
    requires Inv(ttl, s) && Can(s, Publish(f))
    ensures var t := Next(ttl, s, Publish(f));
            && (forall g: nat :: FlightAt(s, g) && g != f && !s.flights[g].stage.Finished?
                  ==> s.flights[g].key in t.open && t.open[s.flights[g].key] == g)
            && (forall k :: k in t.open ==> OpenOk(t, k))
  {
    var t := Next(ttl, s, Publish(f));
    assert FlightOk(ttl, s, f);
    UnfinishedAreOpen(ttl, s);
    forall k | k in t.open ensures OpenOk(t, k) {
      assert OpenOk(s, k);
    }
  }

  lemma CollectKeeps(ttl: int, s: State, c: nat)
    requires Inv(ttl, s) && Can(s, Collect(c))
    ensures Inv(ttl, Next(ttl, s, Collect(c)))
  {
    var t, key := Next(ttl, s, Collect(c)), s.callers[c].key;
    var e := Returned(c, key, t.callers[c].pc.outcome);
    assert CallerOk(s, c);
    if s.callers[c].pc.InFlight? {
      var f := s.callers[c].pc.flight;
      assert FlightOk(ttl, s, f);
      assert Entered(s.history, c, f, key) && Closed(f, key, e.outcome) in s.history;
    }
    Kept(ttl, s, t, [e]);
    forall g: nat | FlightAt(s, g) ensures FlightOk(ttl, t, g) { FlightKept(ttl, s, t, [e], g); }
    forall k | k in t.open ensures OpenOk(t, k) { assert OpenOk(s, k); }
    assert CallerOk(t, c);
  }

  lemma NextKeeps(ttl: int, s: State, op: Op)
    requires Inv(ttl, s) && Can(s, op)
    ensures Inv(ttl, Next(ttl, s, op))
  {
    match op
    case Tick(elapsed) => TickKeeps(ttl, s, elapsed);
    case Begin(key) => BeginKeeps(ttl, s, key);
    case OuterCheck(c) => OuterCheckKeeps(ttl, s, c);
    case Enter(c) => EnterKeeps(ttl, s, c);
    case InnerCheck(f) => InnerCheckKeeps(ttl, s, f);
    case StartCall(f) => StartCallKeeps(ttl, s, f);
    case FinishCall(f, raw) => FinishCallKeeps(ttl, s, f, raw);
    case Remember(f) => RememberKeeps(ttl, s, f);
    case Publish(f) => PublishKeeps(ttl, s, f);
    case Collect(c) => CollectKeeps(ttl, s, c);
  }

  // ----------------------------------------------------------- whole runs

  /** Each operation of the sequence is possible when its turn comes. */
  predicate CanRun(ttl: int, s: State, ops: seq<Op>)
    decreases |ops|
  {
    ops == [] || (Can(s, ops[0]) && CanRun(ttl, Next(ttl, s, ops[0]), ops[1..]))
  }

  function Run(ttl: int, s: State, ops: seq<Op>): State
    requires CanRun(ttl, s, ops)
    decreases |ops|
  {
    if ops == [] then s else Run(ttl, Next(ttl, s, ops[0]), ops[1..])
  }

  lemma {:induction false} RunKeeps(ttl: int, s: State, ops: seq<Op>)
    requires Inv(ttl, s) && CanRun(ttl, s, ops)
    ensures Inv(ttl, Run(ttl, s, ops))
    decreases |ops|
  {
    if ops != [] {
      NextKeeps(ttl, s, ops[0]);
      RunKeeps(ttl, Next(ttl, s, ops[0]), ops[1..]);
    }
  }

  /** Whatever the interleaving, the history is legal, so everything proved of legal histories
      holds of it. */
  lemma EveryRunIsLegal(ttl: int, start: int, ops: seq<Op>)
    requires CanRun(ttl, Init(start), ops)
    ensures Inv(ttl, Run(ttl, Init(start), ops))
    ensures Legal(ttl, Run(ttl, Init(start), ops).history)
  {
    RunKeeps(ttl, Init(start), ops);
  }

  /** In every interleaving the upstream call after a recorded negative starts strictly more than
      the lifetime later, and so does the next recording. */
  lemma RunsWaitOutNegatives(ttl: int, start: int, ops: seq<Op>, i: nat, j: nat)
    requires CanRun(ttl, Init(start), ops)
    requires var h := Run(ttl, Init(start), ops).history;
             i < j < |h| && h[i].Recorded? && (h[j].CallStarted? || h[j].Recorded?) && h[i].key == h[j].key
    ensures var h := Run(ttl, Init(start), ops).history; h[j].at > h[i].at + ttl
  {
    EveryRunIsLegal(ttl, start, ops);
    var h := Run(ttl, Init(start), ops).history;
    if h[j].CallStarted? { CallsWaitOutNegatives(ttl, h, i, j); } else { RecordingsAreSpaced(ttl, h, i, j); }
  }

  /** In every interleaving each completed lookup is in the history and its answer is grounded. */
  lemma RunsAreGrounded(ttl: int, start: int, ops: seq<Op>, c: nat) returns (n: nat, ground: Ground)
    requires CanRun(ttl, Init(start), ops)
    requires CallerAt(Run(ttl, Init(start), ops), c) && Run(ttl, Init(start), ops).callers[c].pc.Done?
    ensures var s := Run(ttl, Init(start), ops);
            && n < |s.history|
            && s.history[n] == Returned(c, s.callers[c].key, s.callers[c].pc.outcome)
            && Grounds(ttl, s.history, n, ground)
  {
    EveryRunIsLegal(ttl, start, ops);
    var s := Run(ttl, Init(start), ops);
    assert CallerOk(s, c);
    n :| 0 <= n < |s.history| && s.history[n] == Returned(c, s.callers[c].key, s.callers[c].pc.outcome);
    ground := EveryAnswerIsGrounded(ttl, s.history, n);
  }

  /** In every interleaving a flight whose call has returned closes, and every lookup through it
      returns, with what WHMCS said: the client, the products or the error itself, or "nothing".
      "Nothing" is recorded when the lifetime is positive, and nothing else ever is. */
  lemma RunsPassWhatWhmcsSays(ttl: int, start: int, ops: seq<Op>, back: nat)
    requires CanRun(ttl, Init(start), ops)
    requires var h := Run(ttl, Init(start), ops).history; back < |h| && h[back].CallReturned?
    ensures var h := Run(ttl, Init(start), ops).history; var f, key, raw := h[back].flight, h[back].key, h[back].raw;
            && (forall n {:trigger h[n]} :: 0 <= n < |h| && h[n].Closed? && h[n].flight == f && h[n].key == key ==>
                  && Passes(key, raw, h[n].outcome)
                  && (!SaysSomething(raw) && ttl > 0 ==>
                        exists m :: 0 <= m < n && h[m].Recorded? && h[m].flight == f && h[m].key == key))
            && (forall n {:trigger h[n]} :: 0 <= n < |h| && h[n].Recorded? && h[n].flight == f && h[n].key == key ==>
                  !SaysSomething(raw))
            && (forall n: nat, entered: nat, closed: nat {:trigger Participates(h, n, entered, closed, f)} ::
                  n < |h| && h[n].Returned? && h[n].key == key && Participates(h, n, entered, closed, f) ==>
                    Passes(key, raw, h[n].outcome))
  {
    EveryRunIsLegal(ttl, start, ops);
    var h := Run(ttl, Init(start), ops).history;
    var f, key, raw := h[back].flight, h[back].key, h[back].raw;
    forall n | 0 <= n < |h| && h[n].Closed? && h[n].flight == f && h[n].key == key
      ensures Passes(key, raw, h[n].outcome)
      ensures !SaysSomething(raw) && ttl > 0 ==>
                exists m :: 0 <= m < n && h[m].Recorded? && h[m].flight == f && h[m].key == key
    {
      CallDecidesClose(ttl, h, back, n);
    }
    forall n | 0 <= n < |h| && h[n].Recorded? && h[n].flight == f && h[n].key == key ensures !SaysSomething(raw) {
      SomethingIsNeverRecorded(ttl, h, back, n);
    }
    forall n: nat, entered: nat, closed: nat
      | n < |h| && h[n].Returned? && h[n].key == key && Participates(h, n, entered, closed, f)
      ensures Passes(key, raw, h[n].outcome)
    {
      CallDecidesAnswers(ttl, h, back, n, entered, closed);
    }
  }

  /** In every run both checks answer from the negative cache exactly when a negative recorded for the
      key is at most the TTL old; otherwise the lookup goes on to its flight, and the flight to its
      call. */
  lemma ChecksServeIff(ttl: int, start: int, ops: seq<Op>, op: Op)
    requires CanRun(ttl, Init(start), ops)
    requires var s := Run(ttl, Init(start), ops); Can(s, op) && (op.OuterCheck? || op.InnerCheck?)
    ensures var s := Run(ttl, Init(start), ops);
            var t := Next(ttl, s, op);
            if op.OuterCheck? then
              var key := s.callers[op.caller].key;
              t.callers[op.caller].pc == if FreshNegative(ttl, s.history, key, s.now) then Pc.Served else Unserved
            else
              var key := s.flights[op.flight].key;
              t.flights[op.flight].stage
              == if FreshNegative(ttl, s.history, key, s.now) then Answered(Ok(Nothing(key))) else Missed
  {
    EveryRunIsLegal(ttl, start, ops);
    var s := Run(ttl, Init(start), ops);
    CheckMeaning(ttl, s, if op.OuterCheck? then s.callers[op.caller].key else s.flights[op.flight].key);
  }

  /** In every reachable state at most one flight of a key is open, hence at most one upstream
      call for that key is running. */
  lemma OneCallInFlight(ttl: int, start: int, ops: seq<Op>, f: nat, g: nat)
    requires CanRun(ttl, Init(start), ops)
    requires var s := Run(ttl, Init(start), ops);
             && FlightAt(s, f) && !s.flights[f].stage.Finished?
             && FlightAt(s, g) && !s.flights[g].stage.Finished?
             && s.flights[f].key == s.flights[g].key
    ensures f == g
  {
    EveryRunIsLegal(ttl, start, ops);
    var s := Run(ttl, Init(start), ops);
    assert FlightOk(ttl, s, f) && FlightOk(ttl, s, g);
  }

  // -------------------------------------------------------------- progress

  function CallerWork(c: Caller): nat {
    match c.pc
    case Started => 9
    case Unserved => 8
    case Served => 1
    case InFlight(_) => 1
    case Done(_) => 0
  }

  function FlightWork(f: Flight): nat { 6 - Rank(f.stage) }

  /** A bound on the sections still to run before every lookup has returned. */
  function Work(s: State): nat { Sum(CallerWork, s.callers) + Sum(FlightWork, s.flights) }

  /** Every section of a running lookup brings it closer to its end. */
  lemma SectionsFinish(ttl: int, s: State, op: Op)
    requires Can(s, op) && IsSection(op)
    ensures Work(Next(ttl, s, op)) < Work(s)
  {
    if op.OuterCheck? || op.Enter? || op.Collect? {
      CallerSectionsFinish(ttl, s, op);
    } else {
      FlightSectionsFinish(ttl, s, op, op.flight);
    }
  }

  lemma CallerSectionsFinish(ttl: int, s: State, op: Op)
    requires Can(s, op) && (op.OuterCheck? || op.Enter? || op.Collect?)
    ensures Work(Next(ttl, s, op)) < Work(s)
  {
    var c, key := op.caller, s.callers[op.caller].key;
    var pc := Next(ttl, s, op).callers[c].pc;
    assert Next(ttl, s, op).callers == s.callers[c := Caller(key, pc)];
    SumUpdate(CallerWork, s.callers, c, Caller(key, pc));
    SumAppend(FlightWork, s.flights, Flight(key, Opening));
  }

  lemma FlightSectionsFinish(ttl: int, s: State, op: Op, f: nat)
    requires Can(s, op) && (op.InnerCheck? || op.StartCall? || op.FinishCall? || op.Remember? || op.Publish?)
    requires f == op.flight
    ensures Work(Next(ttl, s, op)) < Work(s)
  {
    var stage := Next(ttl, s, op).flights[f].stage;
    assert Next(ttl, s, op).flights == s.flights[f := Flight(s.flights[f].key, stage)];
    assert Next(ttl, s, op).callers == s.callers;
    SumUpdate(FlightWork, s.flights, f, Flight(s.flights[f].key, stage));
  }

  predicate IsSection(op: Op) { !op.Tick? && !op.Begin? }

  /** The operation belongs to the lookup: it moves the caller, or the flight the caller is in. */
  predicate Advances(s: State, op: Op, c: nat)
    requires CallerAt(s, c)
  {
    match op
    case Tick(_) => false
    case Begin(_) => false
    case OuterCheck(d) => d == c
    case Enter(d) => d == c
    case Collect(d) => d == c
    case InnerCheck(f) => s.callers[c].pc == InFlight(f)
    case StartCall(f) => s.callers[c].pc == InFlight(f)
    case FinishCall(f, _) => s.callers[c].pc == InFlight(f)
    case Remember(f) => s.callers[c].pc == InFlight(f)
    case Publish(f) => s.callers[c].pc == InFlight(f)
  }

  /** An unfinished lookup waits for nothing but a section of its own or of its flight, and that
      section can run: no interleaving deadlocks. */
  lemma NoDeadlock(ttl: int, s: State, c: nat) returns (op: Op)
    requires Inv(ttl, s) && CallerAt(s, c) && !s.callers[c].pc.Done?
    ensures Can(s, op) && IsSection(op) && Advances(s, op, c)
  {
    assert CallerOk(s, c);
    match s.callers[c].pc
    case Started => op := OuterCheck(c);
    case Unserved => op := Enter(c);
    case Served => op := Collect(c);
    case InFlight(f) =>
      match s.flights[f].stage {
        case Opening => op := InnerCheck(f);
        case Missed => op := StartCall(f);
        case InCall => op := FinishCall(f, Err(""));
        case Replied(_) => op := Remember(f);
        case Answered(_) => op := Publish(f);
        case Finished(_) => op := Collect(c);
      }
  }

  predicate AllSections(ops: seq<Op>) { forall i :: 0 <= i < |ops| ==> IsSection(ops[i]) }

  predicate AllDone(s: State) { forall c :: 0 <= c < |s.callers| ==> s.callers[c].pc.Done? }

  /** Without new lookups a run can only go on for so long, whatever the scheduling. */
  lemma {:induction false} SectionsAreBounded(ttl: int, s: State, ops: seq<Op>)
    requires CanRun(ttl, s, ops) && AllSections(ops)
    ensures |ops| <= Work(s)
    decreases |ops|
  {
    if ops != [] {
      assert IsSection(ops[0]) && AllSections(ops[1..]);
      SectionsFinish(ttl, s, ops[0]);
      SectionsAreBounded(ttl, Next(ttl, s, ops[0]), ops[1..]);
    }
  }

  ghost predicate Stuck(s: State) { forall op {:trigger Can(s, op)} :: IsSection(op) ==> !Can(s, op) }

  /** When no section can run any more, every lookup has completed. With SectionsAreBounded: however
      they are scheduled, the lookups of a reachable state complete. */
  lemma StuckMeansDone(ttl: int, s: State)
    requires Inv(ttl, s) && Stuck(s)
    ensures AllDone(s)
  {
    if !AllDone(s) {
      var c: nat :| c < |s.callers| && !s.callers[c].pc.Done?;
      var op := NoDeadlock(ttl, s, c);
    }
  }

  /** From every reachable state at most Work sections complete every lookup. */
  lemma {:induction false} EveryLookupCompletes(ttl: int, s: State) returns (ops: seq<Op>)
    requires Inv(ttl, s)
    ensures CanRun(ttl, s, ops) && AllSections(ops) && |ops| <= Work(s) && AllDone(Run(ttl, s, ops))
    decreases Work(s)
  {
    if AllDone(s) {
      ops := [];
    } else {
      var c: nat :| c < |s.callers| && !s.callers[c].pc.Done?;
      var op := NoDeadlock(ttl, s, c);
      NextKeeps(ttl, s, op);
      SectionsFinish(ttl, s, op);
      var rest := EveryLookupCompletes(ttl, Next(ttl, s, op));
      ops := [op] + rest;
      assert ops[1..] == rest;
    }
  }

  // ------------------------------------------------------ the resolver object

  /** The resolver's shared state, one method per atomic section. `callers` and the stages in
      `flights` are the goroutines' program counters. */
  class EntitlementResolver {
    const ttl: int
    var now: int
    var negative: map<Key, int>
    var open: map<Key, nat>
    var flights: seq<Flight>
    var callers: seq<Caller>
    ghost var history: History

    ghost function Abs(): State
      reads this
    {
      State(now, negative, open, flights, callers, history)
    }

    ghost predicate Valid()
      reads this
    {
      Inv(ttl, Abs())
    }

    constructor (ttl: int, now: int)
      ensures Valid() && this.ttl == ttl && Abs() == Init(now)
    {
      this.ttl, this.now := ttl, now;
      negative, open, flights, callers, history := map[], map[], [], [], [];
    }

    method Advance(elapsed: nat)
      requires Valid()
      modifies this
      ensures Abs() == Next(ttl, old(Abs()), Tick(elapsed))
      ensures Valid()
    {
      NextKeeps(ttl, Abs(), Tick(elapsed));
      now := now + elapsed;
    }

    method Begin(key: Key) returns (c: nat)
      requires Valid()
      modifies this
      ensures c == |old(callers)| && Abs() == Next(ttl, old(Abs()), Op.Begin(key))
      ensures Valid()
    {
      NextKeeps(ttl, Abs(), Op.Begin(key));
      c := |callers|;
      callers := callers + [Caller(key, Started)];
      history := history + [Began(c, key)];
    }

    /** Runs under the mutex; forgets an entry it finds expired. */
    method NegativeCached(key: Key) returns (hit: bool)
      modifies this`negative
      ensures (hit, negative) == Check(ttl, old(negative), now, key)
    {
      if ttl <= 0 {
        return false;
      }
      if key !in negative {
        return false;
      }
      if now > negative[key] {
        negative := negative - {key};
        return false;
      }
      return true;
    }

    /** Runs under the mutex. */
    method RememberNegative(key: Key)
      modifies this`negative
      ensures negative == if ttl <= 0 then old(negative) else old(negative)[key := now + ttl]
    {
      if ttl <= 0 {
        return;
      }
      negative := negative[key := now + ttl];
    }

    method OuterCheck(c: nat)
      requires Valid() && Can(Abs(), Op.OuterCheck(c))
      modifies this
      ensures Abs() == Next(ttl, old(Abs()), Op.OuterCheck(c))
      ensures Valid()
    {
      NextKeeps(ttl, Abs(), Op.OuterCheck(c));
      var key := callers[c].key;
      var hit := NegativeCached(key);
      if hit {
        callers := callers[c := Caller(key, Pc.Served)];
        history := history + [Event.Served(c, key, now)];
      } else {
        callers := callers[c := Caller(key, Unserved)];
      }
    }

    /** singleflight.Do up to the point where the caller waits or runs the function. */
    method Enter(c: nat)
      requires Valid() && Can(Abs(), Op.Enter(c))
      modifies this
      ensures Abs() == Next(ttl, old(Abs()), Op.Enter(c))
      ensures Valid()
    {
      NextKeeps(ttl, Abs(), Op.Enter(c));
      var key := callers[c].key;
      if key in open {
        callers := callers[c := Caller(key, InFlight(open[key]))];
        history := history + [Joined(c, open[key], key)];
      } else {
        var f := |flights|;
        flights := flights + [Flight(key, Opening)];
        open := open[key := f];
        callers := callers[c := Caller(key, InFlight(f))];
        history := history + [Opened(c, f, key)];
      }
    }

    method InnerCheck(f: nat)
      requires Valid() && Can(Abs(), Op.InnerCheck(f))
      modifies this
      ensures Abs() == Next(ttl, old(Abs()), Op.InnerCheck(f))
      ensures Valid()
    {
      NextKeeps(ttl, Abs(), Op.InnerCheck(f));
      var key := flights[f].key;
      var hit := NegativeCached(key);
      if hit {
        flights := flights[f := Flight(key, Answered(Ok(Nothing(key))))];
        history := history + [Rechecked(f, key, now)];
      } else {
        flights := flights[f := Flight(key, Missed)];
      }
    }

    method StartCall(f: nat)
      requires Valid() && Can(Abs(), Op.StartCall(f))
      modifies this
      ensures Abs() == Next(ttl, old(Abs()), Op.StartCall(f))
      ensures Valid()
    {
      NextKeeps(ttl, Abs(), Op.StartCall(f));
      flights := flights[f := Flight(flights[f].key, InCall)];
      history := history + [CallStarted(f, flights[f].key, now)];
    }

    /** The API's result arrives: an error and a positive reply go straight to publication. */
    method FinishCall(f: nat, raw: Outcome)
      requires Valid() && Can(Abs(), Op.FinishCall(f, raw))
      modifies this
      ensures Abs() == Next(ttl, old(Abs()), Op.FinishCall(f, raw))
      ensures Valid()
    {
      NextKeeps(ttl, Abs(), Op.FinishCall(f, raw));
      var key := flights[f].key;
      if raw.Ok? && IsNegative(raw.value) {
        flights := flights[f := Flight(key, Replied(raw))];
      } else {
        flights := flights[f := Flight(key, Answered(raw))];
      }
      history := history + [CallReturned(f, key, raw)];
    }

    method Remember(f: nat)
      requires Valid() && Can(Abs(), Op.Remember(f))
      modifies this
      ensures Abs() == Next(ttl, old(Abs()), Op.Remember(f))
      ensures Valid()
    {
      ghost var after := Next(ttl, Abs(), Op.Remember(f));
      assert Inv(ttl, after) by { NextKeeps(ttl, Abs(), Op.Remember(f)); }
      var key := flights[f].key;
      var raw := flights[f].stage.raw;
      RememberNegative(key);
      flights := flights[f := Flight(key, Answered(Published(key, raw)))];
      history := if ttl <= 0 then history else history + [Recorded(f, key, now)];
      assert Abs() == after;
    }

    /** The end of singleflight.Do: the result becomes visible and the key leaves the group. */
    method Publish(f: nat)
      requires Valid() && Can(Abs(), Op.Publish(f))
      modifies this
      ensures Abs() == Next(ttl, old(Abs()), Op.Publish(f))
      ensures Valid()
    {
      NextKeeps(ttl, Abs(), Op.Publish(f));
      var key, o := flights[f].key, flights[f].stage.outcome;
      flights := flights[f := Flight(key, Finished(o))];
      open := open - {key};
      history := history + [Closed(f, key, o)];
    }

    method Collect(c: nat) returns (o: Outcome)
      requires Valid() && Can(Abs(), Op.Collect(c))
      modifies this
      ensures Abs() == Next(ttl, old(Abs()), Op.Collect(c))
      ensures Valid()
      ensures callers[c].pc == Done(o)
    {
      NextKeeps(ttl, Abs(), Op.Collect(c));
      var key := callers[c].key;
      if callers[c].pc.Served? {
        o := Ok(Nothing(key));
      } else {
        o := flights[callers[c].pc.flight].stage.outcome;
      }
      callers := callers[c := Caller(key, Done(o))];
      history := history + [Returned(c, key, o)];
    }
  }
}
