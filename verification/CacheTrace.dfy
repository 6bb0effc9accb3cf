/** What an observer of the product cache sees, and what a legal history means. */
module CacheTrace {
  import opened Basics
  import opened Whmcs

  type Fetch = Result<seq<Product>, string>

  datatype Event =
    | Began(time: int, getter: nat)
    | Hit(time: int, getter: nat, list: seq<Product>, at: int)        // a Get found the list fresh and returns it
    | Opened(time: int, getter: nat, flight: nat)
    | Joined(time: int, getter: nat, flight: nat)
    | Rechecked(time: int, flight: nat, list: seq<Product>, at: int)  // the leader found the list fresh
    | FetchStarted(time: int, refresh: nat, leads: Option<nat>)       // leads: the flight; None for a direct Refresh
    | FetchReturned(time: int, refresh: nat, outcome: Fetch)
    | Committed(time: int, refresh: nat, outcome: Fetch, stamp: int)  // stamp: clock read before the lock
    | Closed(time: int, flight: nat, outcome: Fetch)
    | Returned(time: int, getter: nat, flight: nat, outcome: Fetch)

  type History = seq<Event>

  ghost predicate HasBegan(p: History, g: nat) { exists t :: Began(t, g) in p }

  ghost predicate HasOpened(p: History, f: nat) { exists t, g :: Opened(t, g, f) in p }

  ghost predicate HasEntered(p: History, g: nat, f: nat) {
    exists t :: Opened(t, g, f) in p || Joined(t, g, f) in p
  }

  ghost predicate HasClosed(p: History, f: nat, o: Fetch) { exists t :: Closed(t, f, o) in p }

  /** The flight is open: published nothing so far. */
  ghost predicate Active(p: History, f: nat) { HasOpened(p, f) && forall o :: !HasClosed(p, f, o) }

  ghost predicate HasStarted(p: History, r: nat, f: Option<nat>) { exists t :: FetchStarted(t, r, f) in p }

  ghost predicate HasReturned(p: History, r: nat, o: Fetch, latest: int) {
    exists t :: FetchReturned(t, r, o) in p && t <= latest
  }

  ghost predicate HasCommitted(p: History, r: nat, o: Fetch) { exists t, x :: Committed(t, r, o, x) in p }

  ghost predicate HasRechecked(p: History, f: nat, list: seq<Product>) {
    exists t, at :: Rechecked(t, f, list, at) in p
  }

  /** The leader of the flight has not looked at the list yet. */
  ghost predicate Unchecked(p: History, f: nat) {
    (forall r :: !HasStarted(p, r, Some(f))) && (forall list :: !HasRechecked(p, f, list))
  }

  /** What the leader of a flight may answer: the list it found fresh, or the outcome of the
      refresh it ran. */
  ghost predicate Answers(p: History, f: nat, o: Fetch) {
    || (o.Ok? && HasRechecked(p, f, o.value))
    || exists r :: HasStarted(p, r, Some(f)) && HasCommitted(p, r, o)
  }

  /** What a Get may answer. */
  ghost predicate Gets(p: History, g: nat, o: Fetch) {
    || (o.Ok? && exists t, at :: Hit(t, g, o.value, at) in p)
    || exists t, f :: Returned(t, g, f, o) in p
  }

  /** The list stored by the last successful refresh, and its time. */
  ghost predicate Current(p: History, list: seq<Product>, at: int) {
    LastSuccess(p).Some? && p[LastSuccess(p).value].outcome == Ok(list) && p[LastSuccess(p).value].stamp == at
  }

  /** No list is stored, or it is `ttl` old at the given time. */
  ghost predicate Stale(ttl: int, p: History, time: int) {
    LastSuccess(p).Some? ==> p[LastSuccess(p).value].stamp + ttl <= time
  }

  ghost predicate Justified(ttl: int, p: History, e: Event) {
    && (forall d :: d in p ==> d.time <= e.time)
    && match e
       case Began(_, g) => !HasBegan(p, g)
       case Hit(time, g, list, at) => HasBegan(p, g) && Current(p, list, at) && at <= time < at + ttl
       case Opened(_, g, f) => HasBegan(p, g) && !HasOpened(p, f) && forall k :: !Active(p, k)
       case Joined(_, g, f) => HasBegan(p, g) && Active(p, f)
       case Rechecked(time, f, list, at) =>
         Active(p, f) && Unchecked(p, f) && Current(p, list, at) && at <= time < at + ttl
       case FetchStarted(time, r, flight) =>
         && (forall k :: !HasStarted(p, r, k))
         && (flight.Some? ==> Active(p, flight.value) && Unchecked(p, flight.value) && Stale(ttl, p, time))
       case FetchReturned(_, r, o) => exists k :: HasStarted(p, r, k)
       case Committed(time, r, o, stamp) =>
         HasReturned(p, r, o, stamp) && stamp <= time && forall q :: !HasCommitted(p, r, q)
       case Closed(_, f, o) => Active(p, f) && Answers(p, f, o)
       case Returned(_, g, f, o) => HasEntered(p, g, f) && HasClosed(p, f, o)
  }

  ghost predicate JustifiedAt(ttl: int, h: History, n: nat)
    requires n < |h|
  {
    Justified(ttl, h[..n], h[n])
  }

  ghost predicate Legal(ttl: int, h: History) {
    forall n {:trigger JustifiedAt(ttl, h, n)} :: 0 <= n < |h| ==> JustifiedAt(ttl, h, n)
  }

  lemma LegalAppend(ttl: int, h: History, e: Event)
    requires Legal(ttl, h) && Justified(ttl, h, e)
    ensures Legal(ttl, h + [e])
  {
    var g := h + [e];
    forall n | 0 <= n < |g| ensures JustifiedAt(ttl, g, n) {
      if n < |h| {
        assert JustifiedAt(ttl, h, n);
        assert g[..n] == h[..n];
      } else {
        assert g[..n] == h;
      }
    }
  }

  // What is in a history stays there.

  lemma BeganGrows(h: History, news: History, g: nat)
    requires HasBegan(h, g)
    ensures HasBegan(h + news, g)
  {
    var t :| Began(t, g) in h;
    assert Began(t, g) in h + news;
  }

  lemma OpenedGrows(h: History, news: History, f: nat)
    requires HasOpened(h, f)
    ensures HasOpened(h + news, f)
  {
    var t, g :| Opened(t, g, f) in h;
    assert Opened(t, g, f) in h + news;
  }

  lemma EnteredGrows(h: History, news: History, g: nat, f: nat)
    requires HasEntered(h, g, f)
    ensures HasEntered(h + news, g, f)
  {
    var t :| Opened(t, g, f) in h || Joined(t, g, f) in h;
    assert Opened(t, g, f) in h + news || Joined(t, g, f) in h + news;
  }

  lemma ClosedGrows(h: History, news: History, f: nat, o: Fetch)
    requires HasClosed(h, f, o)
    ensures HasClosed(h + news, f, o)
  {
    var t :| Closed(t, f, o) in h;
    assert Closed(t, f, o) in h + news;
  }

  lemma StartedGrows(h: History, news: History, r: nat, f: Option<nat>)
    requires HasStarted(h, r, f)
    ensures HasStarted(h + news, r, f)
  {
    var t :| FetchStarted(t, r, f) in h;
    assert FetchStarted(t, r, f) in h + news;
  }

  lemma CommittedGrows(h: History, news: History, r: nat, o: Fetch)
    requires HasCommitted(h, r, o)
    ensures HasCommitted(h + news, r, o)
  {
    var t, x :| Committed(t, r, o, x) in h;
    assert Committed(t, r, o, x) in h + news;
  }

  lemma AnswersGrow(h: History, news: History, f: nat, o: Fetch)
    requires Answers(h, f, o)
    ensures Answers(h + news, f, o)
  {
    if o.Ok? && HasRechecked(h, f, o.value) {
      var t, at :| Rechecked(t, f, o.value, at) in h;
      assert Rechecked(t, f, o.value, at) in h + news;
    } else {
      var r :| HasStarted(h, r, Some(f)) && HasCommitted(h, r, o);
      StartedGrows(h, news, r, Some(f));
      CommittedGrows(h, news, r, o);
    }
  }

  lemma GetsGrow(h: History, news: History, g: nat, o: Fetch)
    requires Gets(h, g, o)
    ensures Gets(h + news, g, o)
  {
    if o.Ok? && exists t, at :: Hit(t, g, o.value, at) in h {
      var t, at :| Hit(t, g, o.value, at) in h;
      assert Hit(t, g, o.value, at) in h + news;
    } else {
      var t, f :| Returned(t, g, f, o) in h;
      assert Returned(t, g, f, o) in h + news;
    }
  }

  lemma InTimeOrder(ttl: int, h: History, i: nat, j: nat)
    requires Legal(ttl, h) && i <= j < |h|
    ensures h[i].time <= h[j].time
  {
    if i < j {
      assert JustifiedAt(ttl, h, j);
      assert h[i] == h[..j][i];
    }
  }

  /** Where the last refresh committed. */
  function LastCommit(h: History): (r: Option<nat>)
    ensures r.Some? ==> r.value < |h| && h[r.value].Committed?
    ensures forall i :: 0 <= i < |h| && (r.Some? ==> r.value < i) ==> !h[i].Committed?
  {
    if h == [] then None
    else if h[|h| - 1].Committed? then Some(|h| - 1)
    else
      var r := LastCommit(h[..|h| - 1]);
      assert forall i :: 0 <= i < |h| - 1 ==> h[..|h| - 1][i] == h[i];
      r
  }

  /** Where the last successful refresh committed. */
  function LastSuccess(h: History): (r: Option<nat>)
    ensures r.Some? ==> r.value < |h| && h[r.value].Committed? && h[r.value].outcome.Ok?
    ensures forall i :: 0 <= i < |h| && (r.Some? ==> r.value < i) && h[i].Committed? ==> h[i].outcome.Err?
  {
    if h == [] then None
    else if h[|h| - 1].Committed? && h[|h| - 1].outcome.Ok? then Some(|h| - 1)
    else
      var r := LastSuccess(h[..|h| - 1]);
      assert forall i :: 0 <= i < |h| - 1 ==> h[..|h| - 1][i] == h[i];
      r
  }

  /** The commit at j does not fall between the start at i and the commit at k of one refresh. */
  predicate Clear(h: History, i: nat, j: nat, k: nat) {
    i < j < k < |h| && h[i].FetchStarted? && h[j].Committed? && h[k].Committed? ==> h[i].refresh != h[k].refresh
  }

  /** No refresh commits between the start and the commit of another. */
  ghost predicate Apart(h: History) {
    forall i: nat, j: nat, k: nat {:trigger Clear(h, i, j, k)} :: Clear(h, i, j, k)
  }

  /** Where the fetch of a committed refresh started and returned. */
  lemma FetchBehind(ttl: int, h: History, committed: nat) returns (started: nat, back: nat)
    requires Legal(ttl, h) && committed < |h| && h[committed].Committed?
    ensures started < back < committed && h[started].FetchStarted? && h[started].refresh == h[committed].refresh
    ensures h[back].FetchReturned? && h[back].refresh == h[committed].refresh
    ensures h[back].outcome == h[committed].outcome
    ensures h[started].time <= h[back].time <= h[committed].stamp <= h[committed].time
  {
    var r, o := h[committed].refresh, h[committed].outcome;
    assert JustifiedAt(ttl, h, committed);
    var t :| FetchReturned(t, r, o) in h[..committed] && t <= h[committed].stamp;
    back := Find(h, committed, FetchReturned(t, r, o));
    assert JustifiedAt(ttl, h, back);
    var k :| HasStarted(h[..back], r, k);
    var t0 :| FetchStarted(t0, r, k) in h[..back];
    started := Find(h, back, FetchStarted(t0, r, k));
    InTimeOrder(ttl, h, started, back);
  }

  /** Refreshes that do not overlap commit in the order of their clock readings. */
  lemma ApartCommitsInOrder(ttl: int, h: History, i: nat, j: nat)
    requires Legal(ttl, h) && Apart(h) && i < j < |h| && h[i].Committed? && h[j].Committed?
    ensures h[i].stamp <= h[j].stamp
  {
    assert JustifiedAt(ttl, h, i);
    var start, back := FetchBehind(ttl, h, j);
    assert Clear(h, start, i, j);
    assert i < start;
    InTimeOrder(ttl, h, i, start);
    InTimeOrder(ttl, h, start, back);
  }

  /** When refreshes do not overlap, the last success is stamped no later than the last attempt. */
  lemma SuccessNotAfterAttempt(ttl: int, h: History)
    requires Legal(ttl, h) && Apart(h) && LastSuccess(h).Some?
    ensures LastCommit(h).Some? && h[LastSuccess(h).value].stamp <= h[LastCommit(h).value].stamp
  {
    var i := LastSuccess(h).value;
    assert LastCommit(h).Some?;
    var k := LastCommit(h).value;
    if i < k { ApartCommitsInOrder(ttl, h, i, k); }
  }

  lemma LastCommitLater(h: History, n: nat) returns (i: nat, j: nat)
    requires n <= |h| && LastCommit(h[..n]).Some?
    ensures LastCommit(h[..n]) == Some(i) && LastCommit(h) == Some(j)
    ensures i <= j < |h| && h[..n][i] == h[i] && h[i].Committed? && h[j].Committed?
  {
    i := LastCommit(h[..n]).value;
    assert h[i] == h[..n][i];
    j := LastCommit(h).value;
  }

  lemma LastSuccessLater(h: History, n: nat) returns (i: nat, j: nat)
    requires n <= |h| && LastSuccess(h[..n]).Some?
    ensures LastSuccess(h[..n]) == Some(i) && LastSuccess(h) == Some(j)
    ensures i <= j < |h| && h[..n][i] == h[i] && h[i].Committed? && h[j].Committed?
  {
    i := LastSuccess(h[..n]).value;
    assert h[i] == h[..n][i];
    j := LastSuccess(h).value;
  }

  /** When refreshes do not overlap, both stamps only grow as the history does. */
  lemma AttemptStampGrows(ttl: int, h: History, n: nat)
    requires Legal(ttl, h) && Apart(h) && n <= |h| && LastCommit(h[..n]).Some?
    ensures LastCommit(h).Some? && h[..n][LastCommit(h[..n]).value].stamp <= h[LastCommit(h).value].stamp
  {
    var i, j := LastCommitLater(h, n);
    if i < j { ApartCommitsInOrder(ttl, h, i, j); }
  }

  lemma SuccessStampGrows(ttl: int, h: History, n: nat)
    requires Legal(ttl, h) && Apart(h) && n <= |h| && LastSuccess(h[..n]).Some?
    ensures LastSuccess(h).Some? && h[..n][LastSuccess(h[..n]).value].stamp <= h[LastSuccess(h).value].stamp
  {
    var i, j := LastSuccessLater(h, n);
    if i < j { ApartCommitsInOrder(ttl, h, i, j); }
  }

  // ------------------------------------------------------------- answers to Get

  lemma OpenedOnce(ttl: int, h: History, i: nat, j: nat)
    requires Legal(ttl, h) && i < |h| && j < |h| && h[i].Opened? && h[j].Opened? && h[i].flight == h[j].flight
    ensures i == j
  {
    SeenOneWay(h, i, j);
    assert JustifiedAt(ttl, h, i) && JustifiedAt(ttl, h, j);
  }

  lemma StartedOnce(ttl: int, h: History, i: nat, j: nat)
    requires Legal(ttl, h) && i < |h| && j < |h| && h[i].FetchStarted? && h[j].FetchStarted?
    requires h[i].refresh == h[j].refresh
    ensures i == j
  {
    SeenOneWay(h, i, j);
    assert i < j ==> HasStarted(h[..j], h[i].refresh, h[i].leads);
    assert j < i ==> HasStarted(h[..i], h[j].refresh, h[j].leads);
    assert JustifiedAt(ttl, h, i) && JustifiedAt(ttl, h, j);
  }

  /** Where an active flight was opened. */
  lemma OpeningOf(ttl: int, h: History, n: nat, f: nat) returns (opening: nat)
    requires Legal(ttl, h) && n <= |h| && Active(h[..n], f)
    ensures opening < n && h[opening].Opened? && h[opening].flight == f
  {
    var t, g :| Opened(t, g, f) in h[..n];
    opening := Find(h, n, Opened(t, g, f));
  }

  /** What an answer of Get rests on: the list its own look found fresh; the list the leader of the
      flight it entered found fresh; or the refresh that leader ran after opening the flight. */
  datatype Ground =
    | FromHit(hit: nat)
    | FromRecheck(entered: nat, rechecked: nat, closed: nat)
    | FromRefresh(opening: nat, entered: nat, started: nat, committed: nat, closed: nat)

  ghost predicate Enters(h: History, entered: nat, f: nat) {
    entered < |h| && (h[entered].Opened? || h[entered].Joined?) && h[entered].flight == f
  }

  ghost predicate EntersAt(h: History, entered: nat, g: nat, f: nat) {
    Enters(h, entered, f) && h[entered].getter == g
  }

  /** At position n a list less than `ttl` old was read, the one that the last successful refresh
      before n had stored. */
  ghost predicate ReadsFresh(ttl: int, h: History, n: nat, list: seq<Product>) {
    && n < |h| && (h[n].Hit? || h[n].Rechecked?) && h[n].list == list
    && Current(h[..n], list, h[n].at) && h[n].at <= h[n].time < h[n].at + ttl
  }

  ghost predicate Grounds(ttl: int, h: History, g: nat, o: Fetch, ground: Ground) {
    match ground
    case FromHit(hit) => o.Ok? && ReadsFresh(ttl, h, hit, o.value) && h[hit].Hit? && h[hit].getter == g
    case FromRecheck(entered, rechecked, closed) =>
      && entered < closed < |h| && rechecked < closed && h[closed].Closed? && h[closed].outcome == o
      && EntersAt(h, entered, g, h[closed].flight)
      && o.Ok? && ReadsFresh(ttl, h, rechecked, o.value)
      && h[rechecked].Rechecked? && h[rechecked].flight == h[closed].flight
    case FromRefresh(opening, entered, started, committed, closed) =>
      && opening <= entered < closed < |h| && opening < started < committed < closed
      && h[closed].Closed? && h[closed].outcome == o
      && EntersAt(h, entered, g, h[closed].flight)
      && h[opening].Opened? && h[opening].flight == h[closed].flight
      && h[started].FetchStarted? && h[started].leads == Some(h[closed].flight)
      && h[committed].Committed? && h[committed].refresh == h[started].refresh && h[committed].outcome == o
      && h[opening].time <= h[started].time <= h[committed].stamp && Stale(ttl, h[..started], h[started].time)
  }

  /** Every answer of Get is grounded. */
  lemma EveryGetIsGrounded(ttl: int, h: History, g: nat, o: Fetch) returns (ground: Ground)
    requires Legal(ttl, h) && Gets(h, g, o)
    ensures Grounds(ttl, h, g, o, ground)
  {
    assert h[..|h|] == h;
    if o.Ok? && exists t, at :: Hit(t, g, o.value, at) in h {
      var t, at :| Hit(t, g, o.value, at) in h;
      var hit := Find(h, |h|, Hit(t, g, o.value, at));
      assert JustifiedAt(ttl, h, hit);
      ground := FromHit(hit);
    } else {
      var t, f :| Returned(t, g, f, o) in h;
      var n := Find(h, |h|, Returned(t, g, f, o));
      ground := GroundOfReturn(ttl, h, n);
    }
  }

  lemma GroundOfReturn(ttl: int, h: History, n: nat) returns (ground: Ground)
    requires Legal(ttl, h) && n < |h| && h[n].Returned?
    ensures Grounds(ttl, h, h[n].getter, h[n].outcome, ground)
  {
    var g, f, o := h[n].getter, h[n].flight, h[n].outcome;
    assert JustifiedAt(ttl, h, n);
    var t :| Closed(t, f, o) in h[..n];
    var closed := Find(h, n, Closed(t, f, o));
    var x :| Opened(x, g, f) in h[..n] || Joined(x, g, f) in h[..n];
    var entered := Find(h, n, if Opened(x, g, f) in h[..n] then Opened(x, g, f) else Joined(x, g, f));
    EnterBeforeClose(ttl, h, entered, closed);
    ground := GroundOfFlight(ttl, h, entered, closed);
  }

  /** Every entry into a flight comes before its close. */
  lemma EnterBeforeClose(ttl: int, h: History, entered: nat, closed: nat)
    requires Legal(ttl, h) && entered < |h| && closed < |h| && h[closed].Closed?
    requires Enters(h, entered, h[closed].flight)
    ensures entered < closed
  {
    SeenOneWay(h, entered, closed);
    assert JustifiedAt(ttl, h, entered) && JustifiedAt(ttl, h, closed);
    var opening := OpeningOf(ttl, h, closed, h[closed].flight);
    if closed < entered {
      assert HasClosed(h[..entered], h[closed].flight, h[closed].outcome);
      OpenedOnce(ttl, h, opening, entered);
    }
  }

  lemma GroundOfFlight(ttl: int, h: History, entered: nat, closed: nat) returns (ground: Ground)
    requires Legal(ttl, h) && entered < closed < |h| && h[closed].Closed?
    requires Enters(h, entered, h[closed].flight)
    ensures Grounds(ttl, h, h[entered].getter, h[closed].outcome, ground)
  {
    var f, o := h[closed].flight, h[closed].outcome;
    assert JustifiedAt(ttl, h, closed);
    if o.Ok? && HasRechecked(h[..closed], f, o.value) {
      var t, at :| Rechecked(t, f, o.value, at) in h[..closed];
      var rechecked := Find(h, closed, Rechecked(t, f, o.value, at));
      assert JustifiedAt(ttl, h, rechecked);
      ground := FromRecheck(entered, rechecked, closed);
    } else {
      var r :| HasStarted(h[..closed], r, Some(f)) && HasCommitted(h[..closed], r, o);
      ground := GroundOfRefresh(ttl, h, entered, closed, r);
    }
  }

  lemma GroundOfRefresh(ttl: int, h: History, entered: nat, closed: nat, r: nat) returns (ground: Ground)
    requires Legal(ttl, h) && entered < closed < |h| && h[closed].Closed?
    requires Enters(h, entered, h[closed].flight)
    requires HasStarted(h[..closed], r, Some(h[closed].flight)) && HasCommitted(h[..closed], r, h[closed].outcome)
    ensures Grounds(ttl, h, h[entered].getter, h[closed].outcome, ground)
  {
    var f, o := h[closed].flight, h[closed].outcome;
    var t :| FetchStarted(t, r, Some(f)) in h[..closed];
    var started := Find(h, closed, FetchStarted(t, r, Some(f)));
    var x, stamp :| Committed(x, r, o, stamp) in h[..closed];
    var committed := Find(h, closed, Committed(x, r, o, stamp));
    var start, back := FetchBehind(ttl, h, committed);
    StartedOnce(ttl, h, start, started);
    assert JustifiedAt(ttl, h, started);
    var opening := OpeningOf(ttl, h, started, f);
    InTimeOrder(ttl, h, opening, started);
    OpenBeforeEnter(ttl, h, opening, entered);
    ground := FromRefresh(opening, entered, started, committed, closed);
  }

  lemma OpenBeforeEnter(ttl: int, h: History, opening: nat, entered: nat)
    requires Legal(ttl, h) && opening < |h| && entered < |h| && h[opening].Opened?
    requires Enters(h, entered, h[opening].flight)
    ensures opening <= entered
  {
    if h[entered].Opened? {
      OpenedOnce(ttl, h, opening, entered);
    } else {
      assert JustifiedAt(ttl, h, entered);
      var first := OpeningOf(ttl, h, entered, h[opening].flight);
      OpenedOnce(ttl, h, opening, first);
    }
  }
}
