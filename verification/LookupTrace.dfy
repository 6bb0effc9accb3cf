/** What an observer of the entitlement lookups sees, and which histories are acceptable.

    Both lookups (email to client, client id to products) follow one protocol over disjoint
    maps and flight groups, so a key carries the lookup it belongs to. */
module LookupTrace {
  import opened Basics
  import opened Whmcs

  datatype Key = ByEmail(email: string) | ProductsOf(clientId: string)

  datatype Reply = ClientReply(client: Option<Client>) | ProductsReply(products: seq<ClientProduct>)

  type Outcome = Result<Reply, string>

  predicate Fits(key: Key, raw: Outcome) {
    raw.Ok? ==> (key.ByEmail? <==> raw.value.ClientReply?)
  }

  /** "No client found" (nil, or a client without an id) and "no products". */
  predicate IsNegative(reply: Reply) {
    match reply
    case ClientReply(client) => client.None? || client.value.id == ""
    case ProductsReply(products) => products == []
  }

  /** The answer a negative cache entry stands for. */
  function Nothing(key: Key): Reply {
    if key.ByEmail? then ClientReply(None) else ProductsReply([])
  }

  /** What a flight publishes for an upstream outcome: a client without an id counts as no client. */
  function Published(key: Key, raw: Outcome): Outcome {
    if raw.Ok? && IsNegative(raw.value) then Ok(Nothing(key)) else raw
  }

  datatype Event =
    | Began(caller: nat, key: Key)
    | Served(caller: nat, key: Key, at: int)                   // outer check hit the negative cache
    | Opened(caller: nat, flight: nat, key: Key)
    | Joined(caller: nat, flight: nat, key: Key)
    | Rechecked(flight: nat, key: Key, at: int)                // inner check hit the negative cache
    | CallStarted(flight: nat, key: Key, at: int)
    | CallReturned(flight: nat, key: Key, raw: Outcome)
    | Recorded(flight: nat, key: Key, at: int)                 // negative entry written
    | Closed(flight: nat, key: Key, outcome: Outcome)
    | Returned(caller: nat, key: Key, outcome: Outcome)

  type History = seq<Event>

  ghost predicate HasOpened(p: History, flight: nat, key: Key) {
    exists c :: Opened(c, flight, key) in p
  }

  ghost predicate HasClosed(p: History, flight: nat, key: Key) {
    exists o :: Closed(flight, key, o) in p
  }

  /** The flight is open: published nothing so far. */
  ghost predicate Active(p: History, flight: nat, key: Key) {
    HasOpened(p, flight, key) && !HasClosed(p, flight, key)
  }

  ghost predicate HasCalled(p: History, flight: nat, key: Key) {
    exists t :: CallStarted(flight, key, t) in p
  }

  ghost predicate HasRechecked(p: History, flight: nat, key: Key) {
    exists t :: Rechecked(flight, key, t) in p
  }

  ghost predicate HasReturned(p: History, flight: nat, key: Key) {
    exists o :: CallReturned(flight, key, o) in p
  }

  ghost predicate HasRecorded(p: History, flight: nat, key: Key) {
    exists t :: Recorded(flight, key, t) in p
  }

  ghost predicate Entered(p: History, caller: nat, flight: nat, key: Key) {
    Opened(caller, flight, key) in p || Joined(caller, flight, key) in p
  }

  /** A negative for the key was recorded, at most `ttl` before `at`. */
  ghost predicate FreshNegative(ttl: int, p: History, key: Key, at: int) {
    ttl > 0 && exists f, r :: Recorded(f, key, r) in p && r <= at <= r + ttl
  }

  /** Every negative recorded for the key is older than `ttl` at time `at`. */
  ghost predicate AllExpired(ttl: int, p: History, key: Key, at: int) {
    forall f, r :: Recorded(f, key, r) in p ==> r + ttl < at
  }

  /** A negative reply has been recorded, when there is a cache to record it in. */
  ghost predicate Settled(ttl: int, p: History, f: nat, key: Key, raw: Outcome) {
    ttl > 0 && raw.Ok? && IsNegative(raw.value) ==> HasRecorded(p, f, key)
  }

  /** The event may follow the history `p`. */
  ghost predicate Justified(ttl: int, p: History, e: Event) {
    match e
    case Began(c, key) => forall k :: Began(c, k) !in p
    case Served(c, key, at) => Began(c, key) in p && FreshNegative(ttl, p, key, at)
    case Opened(c, f, key) =>
      && Began(c, key) in p
      && (forall k :: !HasOpened(p, f, k))
      && (forall g :: !Active(p, g, key))
    case Joined(c, f, key) => Began(c, key) in p && Active(p, f, key)
    case Rechecked(f, key, at) =>
      Active(p, f, key) && !HasCalled(p, f, key) && FreshNegative(ttl, p, key, at)
    case CallStarted(f, key, at) =>
      && Active(p, f, key) && !HasCalled(p, f, key) && !HasRechecked(p, f, key)
      && AllExpired(ttl, p, key, at)
    case CallReturned(f, key, raw) =>
      Active(p, f, key) && HasCalled(p, f, key) && !HasReturned(p, f, key) && Fits(key, raw)
    case Recorded(f, key, at) =>
      && ttl > 0 && Active(p, f, key) && !HasRecorded(p, f, key)
      && (exists raw :: CallReturned(f, key, raw) in p && raw.Ok? && IsNegative(raw.value))
      && (exists t :: CallStarted(f, key, t) in p && t <= at)
    case Closed(f, key, o) =>
      && Active(p, f, key)
      && (|| (HasRechecked(p, f, key) && o == Ok(Nothing(key)))
          || exists raw :: CallReturned(f, key, raw) in p && o == Published(key, raw) && Settled(ttl, p, f, key, raw))
    case Returned(c, key, o) =>
      || (o == Ok(Nothing(key)) && exists t :: Served(c, key, t) in p)
      || exists f :: Entered(p, c, f, key) && Closed(f, key, o) in p
  }

  ghost predicate JustifiedAt(ttl: int, h: History, n: nat)
    requires n < |h|
  {
    Justified(ttl, h[..n], h[n])
  }

  ghost predicate Legal(ttl: int, h: History) {
    forall n {:trigger JustifiedAt(ttl, h, n)} :: 0 <= n < |h| ==> JustifiedAt(ttl, h, n)
  }

  lemma LegalAppend(ttl: int, h: History, e: Event)
    requires Legal(ttl, h) && Justified(ttl, h, e)
    ensures Legal(ttl, h + [e])
  {
    var g := h + [e];
    forall n | 0 <= n < |g| ensures JustifiedAt(ttl, g, n) {
      if n < |h| {
        assert JustifiedAt(ttl, h, n);
        assert g[..n] == h[..n];
      } else {
        assert g[..n] == h;
      }
    }
  }

  lemma LegalPrefix(ttl: int, h: History, n: nat)
    requires Legal(ttl, h) && n <= |h|
    ensures Legal(ttl, h[..n])
  {
    forall m | 0 <= m < n ensures JustifiedAt(ttl, h[..n], m) {
      assert JustifiedAt(ttl, h, m);
      assert h[..n][..m] == h[..m];
    }
  }

  lemma SeenLater(h: History, m: nat, n: nat, e: Event)
    requires m <= n <= |h| && e in h[..m]
    ensures e in h[..n]
  {
    var k := Find(h, m, e);
    Seen(h, k, n);
  }

  lemma SplitLast(h: History, e: Event)
    requires h != []
    ensures e in h <==> e in h[..|h| - 1] || e == h[|h| - 1]
  {
    assert h == h[..|h| - 1] + [h[|h| - 1]];
  }

  /** Flights for one key never overlap. */
  lemma {:induction false} OneActiveFlight(ttl: int, h: History, f: nat, g: nat, key: Key)
    requires Legal(ttl, h) && Active(h, f, key) && Active(h, g, key)
    ensures f == g
  {
    var c :| Opened(c, f, key) in h;
    var d :| Opened(d, g, key) in h;
    var n := |h| - 1;
    var p := h[..n];
    StillActive(h, f, key);
    StillActive(h, g, key);
    SplitLast(h, Opened(c, f, key));
    SplitLast(h, Opened(d, g, key));
    assert JustifiedAt(ttl, h, n);
    if HasOpened(p, f, key) && HasOpened(p, g, key) {
      LegalPrefix(ttl, h, n);
      OneActiveFlight(ttl, p, f, g, key);
    }
  }

  lemma StillActive(h: History, f: nat, key: Key)
    requires h != [] && Active(h, f, key)
    ensures HasOpened(h[..|h| - 1], f, key) ==> Active(h[..|h| - 1], f, key)
  {
    ActiveEarlier(h, |h| - 1, f, key);
  }

  lemma ActiveEarlier(h: History, m: nat, f: nat, key: Key)
    requires m <= |h| && !HasClosed(h, f, key)
    ensures !HasClosed(h[..m], f, key)
  {
    forall o ensures Closed(f, key, o) !in h[..m] {
      assert Closed(f, key, o) !in h;
    }
  }

  /** While a flight is open at position n, no event before n belongs to another flight that was
      open for the same key after the first one opened. */
  lemma SameFlight(ttl: int, h: History, i: nat, n: nat, f: nat, g: nat, key: Key)
    requires Legal(ttl, h) && i <= n <= |h|
    requires Active(h[..i], f, key) && HasOpened(h[..i], g, key) && !HasClosed(h[..n], g, key)
    ensures f == g
  {
    LegalPrefix(ttl, h, i);
    ActiveEarlier(h[..n], i, g, key);
    assert h[..n][..i] == h[..i];
    OneActiveFlight(ttl, h[..i], f, g, key);
  }

  // ------------------------------------------------------------- theorems

  /** After a negative for a key is recorded, the next upstream call for that key starts
      strictly more than `ttl` later. */
  lemma CallsWaitOutNegatives(ttl: int, h: History, i: nat, j: nat)
    requires Legal(ttl, h) && i < j < |h|
    requires h[i].Recorded? && h[j].CallStarted? && h[i].key == h[j].key
    ensures h[j].at > h[i].at + ttl
  {
    Seen(h, i, j);
    assert JustifiedAt(ttl, h, j);
  }

  lemma ReturnBeforeClose(ttl: int, h: History, i: nat, closed: nat) returns (back: nat)
    requires Legal(ttl, h) && i < closed < |h|
    requires h[i].CallStarted? && h[closed].Closed?
    requires h[i].flight == h[closed].flight && h[i].key == h[closed].key
    ensures i < back < closed
    ensures h[back].CallReturned? && h[back].flight == h[i].flight && h[back].key == h[i].key
    ensures h[closed].outcome == Published(h[i].key, h[back].raw)
  {
    var f, key := h[i].flight, h[i].key;
    assert JustifiedAt(ttl, h, closed);
    NoRecheckAfterCall(ttl, h, i, closed);
    var raw :| CallReturned(f, key, raw) in h[..closed] && h[closed].outcome == Published(key, raw);
    back := Find(h, closed, CallReturned(f, key, raw));
    CallBeforeReturn(ttl, h, i, back);
  }

  lemma CalledNotRechecked(ttl: int, h: History, i: nat, m: nat)
    requires Legal(ttl, h) && i < |h| && m < |h| && h[i].CallStarted?
    ensures !(h[m].Rechecked? && h[m].flight == h[i].flight && h[m].key == h[i].key)
  {
    SeenOneWay(h, i, m);
    assert JustifiedAt(ttl, h, i);
    assert JustifiedAt(ttl, h, m);
  }

  lemma NoRecheckAfterCall(ttl: int, h: History, i: nat, n: nat)
    requires Legal(ttl, h) && i < n <= |h| && h[i].CallStarted?
    ensures !HasRechecked(h[..n], h[i].flight, h[i].key)
  {
    forall m | 0 <= m < n ensures !(h[m].Rechecked? && h[m].flight == h[i].flight && h[m].key == h[i].key) {
      CalledNotRechecked(ttl, h, i, m);
    }
  }

  lemma CallBeforeReturn(ttl: int, h: History, i: nat, back: nat)
    requires Legal(ttl, h) && i < |h| && back < |h| && h[i].CallStarted? && h[back].CallReturned?
    requires h[i].flight == h[back].flight && h[i].key == h[back].key
    ensures i < back
  {
    var f, key := h[i].flight, h[i].key;
    assert JustifiedAt(ttl, h, back);
    assert JustifiedAt(ttl, h, i);
    var t :| CallStarted(f, key, t) in h[..back];
    var m := Find(h, back, CallStarted(f, key, t));
    if back <= i { Seen(h, m, i); }
  }

  /** Two upstream calls for one key never overlap: the first has returned, and its flight has
      closed, before the second starts. */
  lemma CallsNeverOverlap(ttl: int, h: History, i: nat, j: nat) returns (back: nat, closed: nat)
    requires Legal(ttl, h) && i < j < |h|
    requires h[i].CallStarted? && h[j].CallStarted? && h[i].key == h[j].key
    ensures i < back < closed < j
    ensures h[back].CallReturned? && h[back].flight == h[i].flight && h[back].key == h[i].key
    ensures h[closed].Closed? && h[closed].flight == h[i].flight && h[closed].key == h[i].key
  {
    var f, key := h[i].flight, h[i].key;
    FirstFlightClosed(ttl, h, i, j);
    var o :| Closed(f, key, o) in h[..j];
    closed := Find(h, j, Closed(f, key, o));
    assert JustifiedAt(ttl, h, i);
    var c :| Opened(c, f, key) in h[..i];
    if closed < i { Seen(h, closed, i); }
    back := ReturnBeforeClose(ttl, h, i, closed);
  }

  lemma FirstFlightClosed(ttl: int, h: History, i: nat, j: nat)
    requires Legal(ttl, h) && i < j < |h|
    requires h[i].CallStarted? && h[j].CallStarted? && h[i].key == h[j].key
    ensures HasClosed(h[..j], h[i].flight, h[i].key)
  {
    var f, key := h[i].flight, h[i].key;
    Seen(h, i, j);
    assert JustifiedAt(ttl, h, i);
    var c :| Opened(c, f, key) in h[..i];
    SeenLater(h, i, j, Opened(c, f, key));
    assert HasCalled(h[..j], f, key);
    assert JustifiedAt(ttl, h, j);
    if !HasClosed(h[..j], f, key) {
      SameFlight(ttl, h, j, j, h[j].flight, f, key);
    }
  }

  /** A later negative recording for a key comes strictly more than `ttl` after an earlier one. */
  lemma RecordingsAreSpaced(ttl: int, h: History, i: nat, j: nat)
    requires Legal(ttl, h) && i < j < |h|
    requires h[i].Recorded? && h[j].Recorded? && h[i].key == h[j].key
    ensures h[j].at > h[i].at + ttl
  {
    var g, key := h[j].flight, h[i].key;
    assert JustifiedAt(ttl, h, j);
    var t :| CallStarted(g, key, t) in h[..j] && t <= h[j].at;
    var m := Find(h, j, CallStarted(g, key, t));
    CallFollowsRecording(ttl, h, i, m, j);
    CallsWaitOutNegatives(ttl, h, i, m);
  }

  /** The call behind a recording comes after every earlier recording for the key. */
  lemma CallFollowsRecording(ttl: int, h: History, i: nat, m: nat, j: nat)
    requires Legal(ttl, h) && i < j < |h| && m < j
    requires h[i].Recorded? && h[m].CallStarted? && h[j].Recorded?
    requires h[i].key == h[m].key == h[j].key && h[m].flight == h[j].flight
    ensures i < m
  {
    var f, g, key := h[i].flight, h[j].flight, h[i].key;
    if m < i {
      assert JustifiedAt(ttl, h, m);
      var c :| Opened(c, g, key) in h[..m];
      SeenLater(h, m, i, Opened(c, g, key));
      assert JustifiedAt(ttl, h, i);
      Seen(h, i, j);
      assert JustifiedAt(ttl, h, j);
      SameFlight(ttl, h, i, j, f, g, key);
    }
  }

  /** Positions in `h`, in increasing order, of negative recordings for `key`. */
  ghost predicate RecordingsAt(h: History, key: Key, at: seq<nat>) {
    && (forall k :: 0 <= k < |at| ==> at[k] < |h| && h[at[k]].Recorded? && h[at[k]].key == key)
    && (forall k :: 0 < k < |at| ==> at[k - 1] < at[k])
  }

  /** n negative recordings of a key span more than (n - 1) lifetimes, so a window of length
      W > 0 that holds them all satisfies (n - 1) * ttl < W. */
  lemma {:induction false} RecordingRateBound(ttl: int, h: History, key: Key, at: seq<nat>, window: int)
    requires Legal(ttl, h) && RecordingsAt(h, key, at) && at != [] && ttl > 0
    ensures h[at[|at| - 1]].at - h[at[0]].at >= (|at| - 1) * (ttl + 1)
    ensures window > 0 && h[at[|at| - 1]].at - h[at[0]].at <= window ==> (|at| - 1) * ttl < window
  {
    var n := |at|;
    if n > 1 {
      var front := at[..n - 1];
      RecordingRateBound(ttl, h, key, front, window);
      RecordingsAreSpaced(ttl, h, at[n - 2], at[n - 1]);
      assert (n - 2) * (ttl + 1) + (ttl + 1) == (n - 1) * (ttl + 1);
    }
    assert (n - 1) * (ttl + 1) == (n - 1) * ttl + (n - 1);
  }

  /** What justifies an answer: an unexpired negative seen by the caller's own check, or a flight
      the caller entered while it was open and that closed later with this very outcome. */
  datatype Ground =
    | FromCache(served: nat, recorded: nat)
    | FromCall(entered: nat, back: nat, closed: nat)
    | FromRecheck(entered: nat, rechecked: nat, recorded: nat, closed: nat)

  ghost predicate NegativeBehind(ttl: int, h: History, check: nat, recorded: nat, key: Key) {
    && recorded < check < |h| && (h[check].Served? || h[check].Rechecked?)
    && h[check].key == key && h[recorded].Recorded? && h[recorded].key == key
    && ttl > 0 && h[recorded].at <= h[check].at <= h[recorded].at + ttl
  }

  ghost predicate EntersAt(h: History, entered: nat, caller: nat, flight: nat, key: Key) {
    entered < |h| && (h[entered] == Opened(caller, flight, key) || h[entered] == Joined(caller, flight, key))
  }

  ghost predicate Participates(h: History, n: nat, entered: nat, closed: nat, flight: nat)
    requires n < |h| && h[n].Returned?
  {
    && entered < closed < n && EntersAt(h, entered, h[n].caller, flight, h[n].key)
    && h[closed] == Closed(flight, h[n].key, h[n].outcome)
  }

  ghost predicate Grounds(ttl: int, h: History, n: nat, ground: Ground)
    requires n < |h| && h[n].Returned?
  {
    var key, o := h[n].key, h[n].outcome;
    match ground
    case FromCache(served, recorded) =>
      && NegativeBehind(ttl, h, served, recorded, key) && served < n
      && h[served] == Served(h[n].caller, key, h[served].at) && o == Ok(Nothing(key))
    case FromCall(entered, back, closed) =>
      && back < closed < |h| && h[back].CallReturned?
      && Participates(h, n, entered, closed, h[back].flight)
      && h[back].key == key && o == Published(key, h[back].raw)
    case FromRecheck(entered, rechecked, recorded, closed) =>
      && rechecked < closed < |h| && h[rechecked].Rechecked?
      && Participates(h, n, entered, closed, h[rechecked].flight)
      && NegativeBehind(ttl, h, rechecked, recorded, key) && o == Ok(Nothing(key))
  }

  lemma FindRecorded(ttl: int, h: History, check: nat) returns (recorded: nat)
    requires Legal(ttl, h) && check < |h| && (h[check].Served? || h[check].Rechecked?)
    ensures NegativeBehind(ttl, h, check, recorded, h[check].key)
  {
    var key := h[check].key;
    assert JustifiedAt(ttl, h, check);
    var f, r :| Recorded(f, key, r) in h[..check] && r <= h[check].at <= r + ttl;
    recorded := Find(h, check, Recorded(f, key, r));
  }

  /** Every answer is grounded. */
  lemma EveryAnswerIsGrounded(ttl: int, h: History, n: nat) returns (ground: Ground)
    requires Legal(ttl, h) && n < |h| && h[n].Returned?
    ensures Grounds(ttl, h, n, ground)
  {
    var c, key, o := h[n].caller, h[n].key, h[n].outcome;
    assert JustifiedAt(ttl, h, n);
    if o == Ok(Nothing(key)) && exists t :: Served(c, key, t) in h[..n] {
      var t :| Served(c, key, t) in h[..n];
      var served := Find(h, n, Served(c, key, t));
      var recorded := FindRecorded(ttl, h, served);
      ground := FromCache(served, recorded);
    } else {
      var f :| Entered(h[..n], c, f, key) && Closed(f, key, o) in h[..n];
      var closed := Find(h, n, Closed(f, key, o));
      var entered := Find(h, n, if Opened(c, f, key) in h[..n] then Opened(c, f, key) else Joined(c, f, key));
      EnterBeforeClose(ttl, h, entered, closed);
      ground := GroundOfFlight(ttl, h, n, entered, closed, f);
    }
  }

  lemma GroundOfFlight(ttl: int, h: History, n: nat, entered: nat, closed: nat, f: nat) returns (ground: Ground)
    requires Legal(ttl, h) && n < |h| && h[n].Returned? && Participates(h, n, entered, closed, f)
    ensures Grounds(ttl, h, n, ground)
  {
    var key, o := h[n].key, h[n].outcome;
    assert JustifiedAt(ttl, h, closed);
    if HasRechecked(h[..closed], f, key) && o == Ok(Nothing(key)) {
      var t :| Rechecked(f, key, t) in h[..closed];
      var rechecked := Find(h, closed, Rechecked(f, key, t));
      var recorded := FindRecorded(ttl, h, rechecked);
      ground := FromRecheck(entered, rechecked, recorded, closed);
    } else {
      var raw :| CallReturned(f, key, raw) in h[..closed] && o == Published(key, raw);
      var back := Find(h, closed, CallReturned(f, key, raw));
      ground := FromCall(entered, back, closed);
    }
  }

  lemma ClosedSince(h: History, closed: nat, n: nat)
    requires closed < n <= |h| && h[closed].Closed? && HasOpened(h[..closed], h[closed].flight, h[closed].key)
    ensures HasOpened(h[..n], h[closed].flight, h[closed].key)
    ensures HasClosed(h[..n], h[closed].flight, h[closed].key)
  {
    var f, key := h[closed].flight, h[closed].key;
    var c :| Opened(c, f, key) in h[..closed];
    SeenLater(h, closed, n, Opened(c, f, key));
    Seen(h, closed, n);
    assert h[closed] == Closed(f, key, h[closed].outcome);
  }

  /** Every entry into a flight comes before its close. */
  lemma EnterBeforeClose(ttl: int, h: History, entered: nat, closed: nat)
    requires Legal(ttl, h) && entered < |h| && closed < |h|
    requires h[entered].Opened? || h[entered].Joined?
    requires h[closed].Closed? && h[closed].flight == h[entered].flight && h[closed].key == h[entered].key
    ensures entered < closed
  {
    assert JustifiedAt(ttl, h, closed);
    if closed < entered { ClosedSince(h, closed, entered); }
    assert JustifiedAt(ttl, h, entered);
  }

  lemma ClosedOnce(ttl: int, h: History, i: nat, j: nat)
    requires Legal(ttl, h) && i < |h| && j < |h| && h[i].Closed? && h[j].Closed?
    requires h[i].flight == h[j].flight && h[i].key == h[j].key
    ensures i == j
  {
    SeenOneWay(h, i, j);
    assert JustifiedAt(ttl, h, i);
    assert JustifiedAt(ttl, h, j);
  }

  /** Two lookups of a key that return through one flight return the same outcome. */
  lemma ParticipantsAgree(ttl: int, h: History, m: nat, n: nat, f: nat, em: nat, cm: nat, en: nat, cn: nat)
    requires Legal(ttl, h) && m < |h| && n < |h| && h[m].Returned? && h[n].Returned? && h[m].key == h[n].key
    requires Participates(h, m, em, cm, f) && Participates(h, n, en, cn, f)
    ensures h[m].outcome == h[n].outcome && em < cn && en < cm
  {
    ClosedOnce(ttl, h, cm, cn);
  }

  /** Positive and error results are never cached: a caller that gets one began before the flight
      that computed it closed. */
  lemma PositivesAreNotCached(ttl: int, h: History, begun: nat, n: nat) returns (back: nat, closed: nat)
    requires Legal(ttl, h) && begun < |h| && n < |h| && h[begun].Began? && h[n].Returned?
    requires h[begun].caller == h[n].caller && h[n].outcome != Ok(Nothing(h[n].key))
    ensures begun < closed < n && back < closed
    ensures h[back].CallReturned? && h[back].key == h[n].key && h[back].raw == h[n].outcome
    ensures h[closed] == Closed(h[back].flight, h[n].key, h[n].outcome)
  {
    var ground := EveryAnswerIsGrounded(ttl, h, n);
    back, closed := ground.back, ground.closed;
    var entered := ground.entered;
    assert JustifiedAt(ttl, h, entered);
    var k := Find(h, entered, Began(h[n].caller, h[n].key));
    BeganOnce(ttl, h, begun, k);
  }

  lemma BeganOnce(ttl: int, h: History, i: nat, j: nat)
    requires Legal(ttl, h) && i < |h| && j < |h| && h[i].Began? && h[j].Began? && h[i].caller == h[j].caller
    ensures i == j
  {
    SeenOneWay(h, i, j);
    assert JustifiedAt(ttl, h, i);
    assert JustifiedAt(ttl, h, j);
  }

  /** An entry is written only after a successful upstream reply of its own flight was negative:
      an error never adds one, and neither does a positive answer. */
  lemma OnlyNegativesAreRecorded(ttl: int, h: History, n: nat, back: nat)
    requires Legal(ttl, h) && n < |h| && back < |h| && h[n].Recorded? && h[back].CallReturned?
    requires h[n].flight == h[back].flight && h[n].key == h[back].key
    ensures back < n && h[back].raw.Ok? && IsNegative(h[back].raw.value)
  {
    var f, key := h[n].flight, h[n].key;
    assert JustifiedAt(ttl, h, n);
    var raw :| CallReturned(f, key, raw) in h[..n] && raw.Ok? && IsNegative(raw.value);
    var m := Find(h, n, CallReturned(f, key, raw));
    SeenOneWay(h, back, m);
    assert JustifiedAt(ttl, h, back);
    assert JustifiedAt(ttl, h, m);
  }

  /** With a non-positive lifetime the negative cache is off: every answer comes from an upstream
      call of a flight the caller entered while it was open. */
  lemma NoCacheWithoutLifetime(ttl: int, h: History, n: nat) returns (ground: Ground)
    requires Legal(ttl, h) && n < |h| && h[n].Returned? && ttl <= 0
    ensures ground.FromCall? && Grounds(ttl, h, n, ground)
  {
    ground := EveryAnswerIsGrounded(ttl, h, n);
  }

  // ------------------------------------------ what WHMCS says is what lookups answer

  /** An error, a client with an id, or some products. */
  predicate SaysSomething(raw: Outcome) {
    match raw
    case Err(_) => true
    case Ok(ClientReply(c)) => c.Some? && c.value.id != ""
    case Ok(ProductsReply(ps)) => ps != []
  }

  /** "No client" or "no products", as the lookup of the key says it. */
  predicate NoAnswer(key: Key, o: Outcome) {
    match key
    case ByEmail(_) => o == Ok(ClientReply(None))
    case ProductsOf(_) => o == Ok(ProductsReply([]))
  }

  /** What a lookup answers when WHMCS says `raw`. */
  predicate Passes(key: Key, raw: Outcome, o: Outcome) {
    if SaysSomething(raw) then o == raw else NoAnswer(key, o)
  }

  lemma ReturnedOnce(ttl: int, h: History, i: nat, j: nat)
    requires Legal(ttl, h) && i < |h| && j < |h| && h[i].CallReturned? && h[j].CallReturned?
    requires h[i].flight == h[j].flight && h[i].key == h[j].key
    ensures i == j
  {
    SeenOneWay(h, i, j);
    assert JustifiedAt(ttl, h, i);
    assert JustifiedAt(ttl, h, j);
  }

  lemma CallBehind(ttl: int, h: History, back: nat) returns (call: nat)
    requires Legal(ttl, h) && back < |h| && h[back].CallReturned?
    ensures call < back && h[call].CallStarted? && h[call].flight == h[back].flight && h[call].key == h[back].key
  {
    var f, key := h[back].flight, h[back].key;
    assert JustifiedAt(ttl, h, back);
    var t :| CallStarted(f, key, t) in h[..back];
    call := Find(h, back, CallStarted(f, key, t));
  }

  /** A flight whose call has returned closes with what WHMCS said: the reply or the error itself, or
      "nothing" when there was nothing in it. "Nothing" has been recorded by then, if the lifetime is
      positive; anything else never is. */
  lemma CallDecidesClose(ttl: int, h: History, back: nat, closed: nat)
    requires Legal(ttl, h) && back < |h| && closed < |h| && h[back].CallReturned? && h[closed].Closed?
    requires h[back].flight == h[closed].flight && h[back].key == h[closed].key
    ensures Passes(h[back].key, h[back].raw, h[closed].outcome)
    ensures !SaysSomething(h[back].raw) && ttl > 0 ==>
              exists n :: 0 <= n < closed && h[n].Recorded? && h[n].flight == h[back].flight && h[n].key == h[back].key
  {
    var f, key := h[back].flight, h[back].key;
    var call := CallBehind(ttl, h, back);
    assert JustifiedAt(ttl, h, back);
    assert JustifiedAt(ttl, h, closed);
    CalledBeforeClose(ttl, h, call, closed);
    NoRecheckAfterCall(ttl, h, call, closed);
    var raw :| CallReturned(f, key, raw) in h[..closed] && h[closed].outcome == Published(key, raw)
               && Settled(ttl, h[..closed], f, key, raw);
    var m := Find(h, closed, CallReturned(f, key, raw));
    ReturnedOnce(ttl, h, back, m);
    if !SaysSomething(raw) && ttl > 0 {
      var t :| Recorded(f, key, t) in h[..closed];
      var n := Find(h, closed, Recorded(f, key, t));
    }
  }

  lemma CalledBeforeClose(ttl: int, h: History, call: nat, closed: nat)
    requires Legal(ttl, h) && call < |h| && closed < |h| && h[call].CallStarted? && h[closed].Closed?
    requires h[call].flight == h[closed].flight && h[call].key == h[closed].key
    ensures call < closed
  {
    var f, key := h[call].flight, h[call].key;
    assert JustifiedAt(ttl, h, call);
    SeenOneWay(h, call, closed);
    assert h[closed] == Closed(f, key, h[closed].outcome);
  }

  lemma SomethingIsNeverRecorded(ttl: int, h: History, back: nat, n: nat)
    requires Legal(ttl, h) && back < |h| && n < |h| && h[back].CallReturned? && h[n].Recorded?
    requires h[back].flight == h[n].flight && h[back].key == h[n].key
    ensures !SaysSomething(h[back].raw)
  {
    OnlyNegativesAreRecorded(ttl, h, n, back);
  }

  /** Every lookup that returns through a flight returns what WHMCS said in that flight's call. */
  lemma CallDecidesAnswers(ttl: int, h: History, back: nat, n: nat, entered: nat, closed: nat)
    requires Legal(ttl, h) && back < |h| && n < |h| && h[back].CallReturned? && h[n].Returned?
    requires h[n].key == h[back].key && Participates(h, n, entered, closed, h[back].flight)
    ensures Passes(h[back].key, h[back].raw, h[n].outcome)
  {
    CallDecidesClose(ttl, h, back, closed);
  }
}
