/**
  The bounded read-only node client: paginated listing of the boxes of a token, and the
  request, byte and cache accounting of one reconstruction.
 */
module NodeClient {
  import opened Prelude

  const PAGE_SIZE: nat := 16
  const MAX_LINEAGE_BOXES: nat := 16385
  /** ceil(MAX_LINEAGE_BOXES / PAGE_SIZE) */
  const MAX_INDEX_PAGES: nat := 1025

  // ----- Pagination -----

  /** A server's answer to a page request; Refused covers transport errors, a missed deadline and
      a body off the canonical schema. */
  datatype Response<T> = Refused | Page(total: nat, items: seq<T>, bytes: nat)

  /** A server: its answer to the i-th request, given the offset asked for. It may answer
      differently each time. */
  type Server<!T> = (nat, nat) -> Response<T>

  /** Requests needed for a list of n items: at least one, each full page but the last. */
  function PageCount(n: nat): nat {
    if n == 0 then 1 else (n + PAGE_SIZE - 1) / PAGE_SIZE
  }

  function PageOf<T>(list: seq<T>, i: nat): seq<T>
    requires i < PageCount(|list|)
  {
    if |list| < PAGE_SIZE * (i + 1) then list[PAGE_SIZE * i..] else list[PAGE_SIZE * i..PAGE_SIZE * (i + 1)]
  }

  /** Bytes of the first k answers. */
  function Bytes<T>(server: Server<T>, k: nat): nat {
    if k == 0 then 0
    else
      var r := server(k - 1, PAGE_SIZE * (k - 1));
      Bytes(server, k - 1) + if r.Page? then r.bytes else 0
  }

  /** The server serves exactly this list, page by page. */
  ghost predicate Serves<T(!new)>(server: Server<T>, list: seq<T>) {
    forall i: nat :: i < PageCount(|list|) ==>
      var r := server(i, PAGE_SIZE * i); r.Page? && r.total == |list| && r.items == PageOf(list, i)
  }

  ghost predicate ServesWithin<T(!new)>(server: Server<T>, list: seq<T>, maxBytes: nat) {
    && |list| <= MAX_LINEAGE_BOXES
    && Serves(server, list)
    && Bytes(server, PageCount(|list|)) <= maxBytes
  }

  lemma {:induction false} BytesGrow<T>(server: Server<T>, j: nat, k: nat)
    requires j <= k
    ensures Bytes(server, j) <= Bytes(server, k)
  {
    if j < k {
      BytesGrow(server, j, k - 1);
    }
  }

  /** k full pages of a longer list have been collected. */
  ghost predicate Collected<T(!new)>(server: Server<T>, boxes: seq<T>, total: Option<nat>, k: nat) {
    && |boxes| == PAGE_SIZE * k
    && (k == 0 <==> total == None)
    && (total.Some? ==> |boxes| < total.value <= MAX_LINEAGE_BOXES)
    && forall i: nat :: i < k ==>
         var r := server(i, PAGE_SIZE * i);
         r.Page? && r.total == total.value && r.items == boxes[PAGE_SIZE * i..PAGE_SIZE * (i + 1)]
  }

  /** The next answer passes every check. */
  predicate Good<T>(server: Server<T>, total: Option<nat>, k: nat, maxBytes: nat) {
    var r := server(k, PAGE_SIZE * k);
    && r.Page?
    && Bytes(server, k + 1) <= maxBytes
    && r.total <= MAX_LINEAGE_BOXES
    && (total.Some? ==> total.value == r.total)
    && PAGE_SIZE * k <= r.total
    && |r.items| == Min(PAGE_SIZE, r.total - PAGE_SIZE * k)
  }

  function Min(a: nat, b: nat): nat {
    if a < b then a else b
  }

  /** A list the server serves agrees with what has been collected. */
  lemma ServedPrefix<T(!new)>(server: Server<T>, boxes: seq<T>, total: Option<nat>, k: nat, list: seq<T>)
    requires Collected(server, boxes, total, k) && Serves(server, list)
    ensures total.Some? ==> total.value == |list|
    ensures |boxes| <= |list| && list[..|boxes|] == boxes && k < PageCount(|list|)
  {
    if 0 < k {
      assert server(0, PAGE_SIZE * 0).total == |list|;
      forall j | 0 <= j < |boxes|
        ensures list[j] == boxes[j]
      {
        var i := j / PAGE_SIZE;
        assert PageOf(list, i) == boxes[PAGE_SIZE * i..PAGE_SIZE * (i + 1)];
        assert list[j] == PageOf(list, i)[j - PAGE_SIZE * i];
      }
    }
  }

  lemma ServedNext<T(!new)>(server: Server<T>, boxes: seq<T>, total: Option<nat>, k: nat, list: seq<T>, maxBytes: nat)
    requires Collected(server, boxes, total, k) && ServesWithin(server, list, maxBytes)
    ensures Good(server, total, k, maxBytes)
    ensures server(k, PAGE_SIZE * k).total == |list|
    ensures list[..|boxes|] == boxes && server(k, PAGE_SIZE * k).items == PageOf(list, k)
  {
    hide Collected, Bytes;
    ServedPrefix(server, boxes, total, k, list);
    assert server(k, PAGE_SIZE * k).items == PageOf(list, k);
    BytesGrow(server, k + 1, PageCount(|list|));
    Boxes(server, boxes, total, k);
  }

  lemma Boxes<T(!new)>(server: Server<T>, boxes: seq<T>, total: Option<nat>, k: nat)
    requires Collected(server, boxes, total, k)
    ensures |boxes| == PAGE_SIZE * k && (total.Some? ==> |boxes| < total.value)
  {
  }

  /** An answer that fails a check: the server serves no list at all. */
  lemma NoneServed<T(!new)>(server: Server<T>, boxes: seq<T>, total: Option<nat>, k: nat, maxBytes: nat)
    requires Collected(server, boxes, total, k) && !Good(server, total, k, maxBytes)
    ensures forall list :: !ServesWithin(server, list, maxBytes)
  {
    hide Collected, Good, ServesWithin;
    forall list
      ensures !ServesWithin(server, list, maxBytes)
    {
      if ServesWithin(server, list, maxBytes) {
        ServedNext(server, boxes, total, k, list, maxBytes);
      }
    }
  }

  /** A good answer that is not the last extends the collection. */
  lemma CollectsMore<T(!new)>(server: Server<T>, boxes: seq<T>, total: Option<nat>, k: nat, maxBytes: nat)
    requires Collected(server, boxes, total, k) && Good(server, total, k, maxBytes)
    ensures var r := server(k, PAGE_SIZE * k);
            |boxes + r.items| < r.total ==> Collected(server, boxes + r.items, Some(r.total), k + 1)
  {
    hide Bytes;
    var r := server(k, PAGE_SIZE * k);
    var more := boxes + r.items;
    if |more| < r.total {
      forall i: nat | i < k + 1
        ensures server(i, PAGE_SIZE * i).Page? && server(i, PAGE_SIZE * i).total == r.total
        ensures server(i, PAGE_SIZE * i).items == more[PAGE_SIZE * i..PAGE_SIZE * (i + 1)]
      {
        assert i < k ==> more[PAGE_SIZE * i..PAGE_SIZE * (i + 1)] == boxes[PAGE_SIZE * i..PAGE_SIZE * (i + 1)];
      }
    }
  }

  /** A good answer that completes the total: the list served is the one collected. */
  lemma CollectsAll<T(!new)>(server: Server<T>, boxes: seq<T>, total: Option<nat>, k: nat, maxBytes: nat)
    requires Collected(server, boxes, total, k) && Good(server, total, k, maxBytes)
    requires var r := server(k, PAGE_SIZE * k); |boxes + r.items| == r.total
    ensures var list := boxes + server(k, PAGE_SIZE * k).items;
            && ServesWithin(server, list, maxBytes)
            && forall other :: ServesWithin(server, other, maxBytes) ==> other == list
  {
    var list := boxes + server(k, PAGE_SIZE * k).items;
    ServesCollected(server, boxes, total, k, maxBytes);
    forall other | ServesWithin(server, other, maxBytes)
      ensures other == list
    {
      ServedNext(server, boxes, total, k, other, maxBytes);
      assert other == other[..|boxes|] + PageOf(other, k);
    }
  }

  lemma ServesCollected<T(!new)>(server: Server<T>, boxes: seq<T>, total: Option<nat>, k: nat, maxBytes: nat)
    requires Collected(server, boxes, total, k) && Good(server, total, k, maxBytes)
    requires var r := server(k, PAGE_SIZE * k); |boxes + r.items| == r.total
    ensures ServesWithin(server, boxes + server(k, PAGE_SIZE * k).items, maxBytes)
  {
    hide Bytes;
    var list := boxes + server(k, PAGE_SIZE * k).items;
    assert PageCount(|list|) == k + 1;
    forall i: nat | i < k + 1
      ensures server(i, PAGE_SIZE * i).Page? && server(i, PAGE_SIZE * i).total == |list|
      ensures server(i, PAGE_SIZE * i).items == PageOf(list, i)
    {
      assert i < k ==> PageOf(list, i) == boxes[PAGE_SIZE * i..PAGE_SIZE * (i + 1)];
    }
  }

  /** getIndexedBoxesByTokenId. A list comes back if and only if the server serves that list
      within the bounds. Whatever the server, every continuing page is full and the offset is
      the number of items collected, so the page-count and more-than-total guards never fire. */
  method GetIndexedBoxes<T(!new, ==)>(server: Server<T>, maxLineageBytes: nat) returns (r: Option<seq<T>>)
    ensures r.Some? ==> ServesWithin(server, r.value, maxLineageBytes)
    ensures forall list :: ServesWithin(server, list, maxLineageBytes) ==> r == Some(list)
  {
    hide ServesWithin, Bytes, PageOf, PageCount;
    var boxes: seq<T> := [];
    var expectedTotal: Option<nat> := None;
    var offset: nat, accumulatedBytes: nat, pageCount: nat := 0, 0, 0;
    NoBytes(server);
    while true
      invariant offset == |boxes| == PAGE_SIZE * pageCount
      invariant accumulatedBytes == Bytes(server, pageCount) <= maxLineageBytes
      invariant Collected(server, boxes, expectedTotal, pageCount)
      decreases MAX_INDEX_PAGES - pageCount
    {
      if pageCount >= MAX_INDEX_PAGES {
        // "indexed token pagination exceeds the bounded page count"
        assert false;
      }
      ghost var (before, total0, k) := (boxes, expectedTotal, pageCount);
      var response := server(pageCount, offset);
      if response.Refused? {
        NoneServed(server, before, total0, k, maxLineageBytes);
        return None;
      }
      pageCount := pageCount + 1;
      MoreBytes(server, k);
      if response.bytes > maxLineageBytes - accumulatedBytes {
        NoneServed(server, before, total0, k, maxLineageBytes);
        return None;
      }
      accumulatedBytes := accumulatedBytes + response.bytes;
      var total := response.total;
      if total > MAX_LINEAGE_BOXES {
        NoneServed(server, before, total0, k, maxLineageBytes);
        return None;
      }
      if expectedTotal == None {
        expectedTotal := Some(total);
      }
      if expectedTotal.value != total {
        NoneServed(server, before, total0, k, maxLineageBytes);
        return None;
      }
      if |response.items| != Min(PAGE_SIZE, total - |boxes|) {
        NoneServed(server, before, total0, k, maxLineageBytes);
        return None;
      }
      assert Good(server, total0, k, maxLineageBytes);
      boxes := boxes + response.items;
      if |boxes| > total {
        // "indexed token response returned more than total"
        assert false;
      }
      if |boxes| == total {
        CollectsAll(server, before, total0, k, maxLineageBytes);
        return Some(boxes);
      }
      CollectsMore(server, before, total0, k, maxLineageBytes);
      offset := offset + |response.items|;
    }
  }

  lemma NoBytes<T>(server: Server<T>)
    ensures Bytes(server, 0) == 0
  {
  }

  lemma MoreBytes<T>(server: Server<T>, k: nat)
    ensures var r := server(k, PAGE_SIZE * k);
            Bytes(server, k + 1) == Bytes(server, k) + if r.Page? then r.bytes else 0
  {
  }

  // ----- Budget and caches of a reconstruction -----

  const MAX_RESPONSE_BYTES: nat := 8 * 1024 * 1024

  datatype Budget = Budget(deadline: int, remainingBytes: int, remainingRequests: int)

  datatype Limits = Limits(deadlineMs: nat, maxBytes: nat, maxRequests: nat)

  /** The three caches, and a key in one of them. */
  datatype Key = Transaction(id: string) | Header(id: string) | Block(id: string)

  /** What has happened since the reconstruction began. A lookup is answered with a promise, and
      a promise settles once: two answers with one promise agree. */
  datatype Entry =
    | SpentRequest(request: nat)
    | SpentBytes(request: nat, bytes: nat)
    | Loaded(key: Key, promise: nat)
    | Answered(key: Key, promise: nat)

  /** flight: requests sent and not answered yet; carried: those of them from before the begin. */
  datatype State = State(
    budget: Option<Budget>, cache: map<Key, nat>, next: nat, session: seq<Entry>, flight: set<nat>, carried: set<nat>)

  const IDLE := State(None, map[], 0, [], {}, {})

  /** beginAuthenticatedTrackerReconstruction */
  function Begun(l: Limits, s: State, now: int): (State, bool) {
    if s.budget.Some? then (s, false)
    else if now + l.deadlineMs > MAX_SAFE_INTEGER || now > MAX_SAFE_INTEGER || now < -MAX_SAFE_INTEGER then (s, false)
    else (State(Some(Budget(now + l.deadlineMs, l.maxBytes, l.maxRequests)), map[], s.next, [], s.flight, s.flight), true)
  }

  /** endAuthenticatedTrackerReconstruction */
  function Ended(s: State): State {
    State(None, map[], s.next, [], s.flight, {})
  }

  /** A request is sent, under a new identity. */
  function Sent(s: State): State {
    s.(next := s.next + 1, flight := s.flight + {s.next})
  }

  /** consumeReconstructionRequest: the timeout granted, or None when it throws. */
  function RequestConsumed(s: State, timeout: int, now: int): (State, Option<int>) {
    if s.budget == None then (Sent(s), Some(timeout))
    else
      var b := s.budget.value;
      if b.deadline - now <= 0 || b.remainingRequests < 1 then (s, None)
      else
        (Sent(s).(budget := Some(b.(remainingRequests := b.remainingRequests - 1)),
                  session := s.session + [SpentRequest(s.next)]),
         Some(if timeout < b.deadline - now then timeout else b.deadline - now))
  }

  /** A response arrives: the per-response bound, then consumeReconstructionBytes, which charges
      whatever budget there is by now. */
  function BytesConsumed(s: State, request: nat, bytes: nat, now: int): (State, bool) {
    if request !in s.flight then (s, false)
    else
      var t := s.(flight := s.flight - {request});
      if bytes > MAX_RESPONSE_BYTES then (t, false)
      else if s.budget == None then (t, true)
      else
        var b := s.budget.value;
        if now > b.deadline || bytes > b.remainingBytes then (t, false)
        else
          (t.(budget := Some(b.(remainingBytes := b.remainingBytes - bytes)),
              session := s.session + [SpentBytes(request, bytes)]),
           true)
  }

  /** A request fails or is aborted. */
  function Failed(s: State, request: nat): State {
    s.(flight := s.flight - {request})
  }

  /** cachedLookup: a load sends its request at once; the promise is kept even if that failed. */
  function LookedUp(s: State, key: Key, timeout: int, now: int): (State, nat) {
    if s.budget.Some? && key in s.cache then (s.(session := s.session + [Answered(key, s.cache[key])]), s.cache[key])
    else
      var t := RequestConsumed(s, timeout, now).0;
      if s.budget == None then (t.(next := t.next + 1), t.next)
      else
        (t.(cache := t.cache[key := t.next], next := t.next + 1,
            session := t.session + [Loaded(key, t.next), Answered(key, t.next)]),
         t.next)
  }

  // ----- Every call sequence -----

  datatype Event =
    | Begins(now: int)
    | Ends
    | Requests(timeout: int, now: int)
    | Receives(request: nat, bytes: nat, now: int)
    | Fails(request: nat)
    | LooksUp(key: Key, timeout: int, now: int)

  function Step(l: Limits, s: State, e: Event): State {
    match e
    case Begins(now) => Begun(l, s, now).0
    case Ends => Ended(s)
    case Requests(timeout, now) => RequestConsumed(s, timeout, now).0
    case Receives(request, bytes, now) => BytesConsumed(s, request, bytes, now).0
    case Fails(request) => Failed(s, request)
    case LooksUp(key, timeout, now) => LookedUp(s, key, timeout, now).0
  }

  function Run(l: Limits, events: seq<Event>): State {
    if events == [] then IDLE else Step(l, Run(l, events[..|events| - 1]), events[|events| - 1])
  }

  function Requested(session: seq<Entry>): nat {
    if session == [] then 0
    else Requested(session[..|session| - 1]) + if session[|session| - 1].SpentRequest? then 1 else 0
  }

  function Received(session: seq<Entry>): nat {
    if session == [] then 0
    else Received(session[..|session| - 1])
         + if session[|session| - 1].SpentBytes? then session[|session| - 1].bytes else 0
  }

  /** Spent and remaining add up to the bounds, and nothing is overspent. */
  ghost predicate Conserved(l: Limits, s: State) {
    s.budget.Some? ==>
      && s.budget.value.remainingRequests + Requested(s.session) == l.maxRequests
      && s.budget.value.remainingBytes + Received(s.session) == l.maxBytes
      && 0 <= s.budget.value.remainingRequests
      && 0 <= s.budget.value.remainingBytes
  }

  /** Each key is loaded at most once, after which every answer is that load's promise. */
  ghost predicate Consistent(session: seq<Entry>) {
    && (forall i, j :: 0 <= i < j < |session| && session[i].Loaded? && session[j].Loaded? ==>
          session[i].key != session[j].key && session[i].promise < session[j].promise)
    && (forall j :: 0 <= j < |session| && session[j].Answered? ==>
          exists i :: 0 <= i < j && session[i] == Loaded(session[j].key, session[j].promise))
  }

  /** The cache holds exactly the loads of this session; outside a session it is empty. */
  ghost predicate CacheIsSession(s: State) {
    && (forall k :: k in s.cache ==> Loaded(k, s.cache[k]) in s.session)
    && (forall x :: x in s.session && x.Loaded? ==> x.key in s.cache && x.promise < s.next)
    && (s.budget == None ==> s.cache == map[] && s.session == [])
  }

  /** A request of this session, or one that was in flight when it began. */
  ghost predicate Accounted(s: State, request: nat) {
    request in s.carried || SpentRequest(request) in s.session
  }

  /** Responses are charged once each, to requests that are accounted for. */
  ghost predicate Charged(s: State) {
    && (forall r :: r in s.flight ==> r < s.next && (s.budget.Some? ==> Accounted(s, r)))
    && (forall x :: x in s.session && x.SpentBytes? ==>
          x.request < s.next && x.request !in s.flight && Accounted(s, x.request))
    && (forall i, j :: 0 <= i < j < |s.session| && s.session[i].SpentBytes? && s.session[j].SpentBytes? ==>
          s.session[i].request != s.session[j].request)
  }

  ghost predicate Inv(l: Limits, s: State) {
    Conserved(l, s) && Consistent(s.session) && CacheIsSession(s) && Charged(s)
  }

  lemma Spending(session: seq<Entry>, e: Entry)
    ensures Requested(session + [e]) == Requested(session) + if e.SpentRequest? then 1 else 0
    ensures Received(session + [e]) == Received(session) + if e.SpentBytes? then e.bytes else 0
  {
    assert (session + [e])[..|session|] == session;
  }

  lemma ConsistentGrows(session: seq<Entry>, e: Entry)
    requires Consistent(session)
    requires e.Loaded? ==> forall x :: x in session && x.Loaded? ==> x.key != e.key && x.promise < e.promise
    requires e.Answered? ==> Loaded(e.key, e.promise) in session
    ensures Consistent(session + [e])
  {
    var longer := session + [e];
    forall j | 0 <= j < |longer| && longer[j].Answered?
      ensures exists i :: 0 <= i < j && longer[i] == Loaded(longer[j].key, longer[j].promise)
    {
      if j < |session| {
        var i :| 0 <= i < j && session[i] == Loaded(session[j].key, session[j].promise);
        assert longer[i] == Loaded(longer[j].key, longer[j].promise);
      } else {
        var i :| 0 <= i < |session| && session[i] == Loaded(e.key, e.promise);
        assert longer[i] == Loaded(longer[j].key, longer[j].promise);
      }
    }
    forall i, j | 0 <= i < j < |longer| && longer[i].Loaded? && longer[j].Loaded?
      ensures longer[i].key != longer[j].key && longer[i].promise < longer[j].promise
    {
      assert longer[i] == session[i] && session[i] in session;
    }
  }

  /** An entry that charges nothing, with identities moving on. */
  lemma ChargedGrows(s: State, t: State, e: Entry)
    requires Charged(s) && t.session == s.session + [e] && !e.SpentBytes?
    requires t.carried == s.carried && s.next <= t.next && t.budget.Some? == s.budget.Some?
    requires t.flight == s.flight || (t.flight == s.flight + {s.next} && s.next < t.next && e == SpentRequest(s.next))
    ensures Charged(t)
  {
  }

  lemma RequestKeeps(l: Limits, s: State, timeout: int, now: int)
    requires Inv(l, s)
    ensures Inv(l, RequestConsumed(s, timeout, now).0)
    ensures var t := RequestConsumed(s, timeout, now).0; t.cache == s.cache
    ensures var t := RequestConsumed(s, timeout, now).0; t.budget.Some? == s.budget.Some?
  {
    hide Requested, Received, Consistent, Charged;
    var (t, e) := (RequestConsumed(s, timeout, now).0, SpentRequest(s.next));
    Spending(s.session, e);
    ConsistentGrows(s.session, e);
    if s.budget == None {
      SentOutside(s);
    } else if t != s {
      ChargedGrows(s, t, e);
    }
  }

  lemma SentOutside(s: State)
    requires Charged(s) && s.budget == None
    ensures Charged(Sent(s))
  {
  }

  lemma BytesCharged(s: State, t: State, request: nat, bytes: nat)
    requires Charged(s) && request in s.flight && s.budget.Some? && t.budget.Some?
    requires t == s.(budget := t.budget, flight := s.flight - {request},
                     session := s.session + [SpentBytes(request, bytes)])
    ensures Charged(t)
  {
  }

  lemma FailureCharged(s: State, request: nat)
    requires Charged(s)
    ensures Charged(Failed(s, request))
  {
  }

  lemma BytesKeep(l: Limits, s: State, request: nat, bytes: nat, now: int)
    requires Inv(l, s)
    ensures Inv(l, BytesConsumed(s, request, bytes, now).0)
  {
    hide Requested, Received, Consistent, Charged;
    var t := BytesConsumed(s, request, bytes, now).0;
    Spending(s.session, SpentBytes(request, bytes));
    ConsistentGrows(s.session, SpentBytes(request, bytes));
    FailureCharged(s, request);
    if t.session != s.session {
      BytesCharged(s, t, request, bytes);
    }
  }

  lemma AnswerKeeps(l: Limits, s: State, key: Key)
    requires Inv(l, s) && s.budget.Some? && key in s.cache
    ensures Inv(l, s.(session := s.session + [Answered(key, s.cache[key])]))
  {
    hide Requested, Received, Consistent, Charged;
    var e := Answered(key, s.cache[key]);
    Spending(s.session, e);
    ConsistentGrows(s.session, e);
    ChargedGrows(s, s.(session := s.session + [e]), e);
  }

  lemma LoadKeeps(l: Limits, s: State, key: Key)
    requires Inv(l, s) && s.budget.Some? && key !in s.cache
    ensures Inv(l, s.(cache := s.cache[key := s.next], next := s.next + 1, session := s.session + [Loaded(key, s.next)]))
  {
    hide Requested, Received, Consistent, Charged;
    var e := Loaded(key, s.next);
    Spending(s.session, e);
    ConsistentGrows(s.session, e);
    ChargedGrows(s, s.(cache := s.cache[key := s.next], next := s.next + 1, session := s.session + [e]), e);
  }

  lemma LookupKeeps(l: Limits, s: State, key: Key, timeout: int, now: int)
    requires Inv(l, s)
    ensures Inv(l, LookedUp(s, key, timeout, now).0)
  {
    hide Consistent, Requested, Received, RequestConsumed, Charged;
    if s.budget.Some? && key in s.cache {
      AnswerKeeps(l, s, key);
    } else {
      RequestKeeps(l, s, timeout, now);
      var t := RequestConsumed(s, timeout, now).0;
      if s.budget == None {
        LaterFits(l, t);
      } else {
        LoadKeeps(l, t, key);
        var u := t.(cache := t.cache[key := t.next], next := t.next + 1, session := t.session + [Loaded(key, t.next)]);
        AnswerKeeps(l, u, key);
        assert u.session + [Answered(key, t.next)] == t.session + [Loaded(key, t.next), Answered(key, t.next)];
      }
    }
  }

  lemma LaterFits(l: Limits, s: State)
    requires Inv(l, s)
    ensures Inv(l, s.(next := s.next + 1))
  {
    hide Consistent, Requested, Received;
  }

  lemma StepKeeps(l: Limits, s: State, e: Event)
    requires Inv(l, s)
    ensures Inv(l, Step(l, s, e))
  {
    hide Consistent, RequestConsumed, BytesConsumed, LookedUp;
    NothingConsistent();
    match e
    case Begins(_) =>
    case Ends =>
    case Requests(timeout, now) => RequestKeeps(l, s, timeout, now);
    case Receives(request, bytes, now) => BytesKeep(l, s, request, bytes, now);
    case Fails(request) => FailureCharged(s, request);
    case LooksUp(key, timeout, now) => LookupKeeps(l, s, key, timeout, now);
  }

  /** Conservation and at-most-once loading after any sequence of calls. */
  lemma {:induction false} RunKeeps(l: Limits, events: seq<Event>)
    ensures Inv(l, Run(l, events))
  {
    hide Consistent, Step;
    if events == [] {
      NothingConsistent();
    } else {
      RunKeeps(l, events[..|events| - 1]);
      StepKeeps(l, Run(l, events[..|events| - 1]), events[|events| - 1]);
    }
  }

  lemma NothingConsistent()
    ensures Consistent([])
  {
  }

  lemma NeverOverspent(l: Limits, s: State)
    requires Inv(l, s)
    ensures s.budget.Some? ==> s.budget.value.remainingBytes >= 0 && s.budget.value.remainingRequests >= 0
  {
    hide Consistent, CacheIsSession, Charged;
  }

  /** In a session a request is granted exactly before the deadline and within the bound; its timeout
      is the one asked for unless that would pass the deadline. */
  lemma GrantedInTime(s: State, timeout: int, now: int)
    requires s.budget.Some?
    ensures var (b, granted) := (s.budget.value, RequestConsumed(s, timeout, now).1);
            && (granted.Some? <==> now < b.deadline && b.remainingRequests > 0)
            && (granted.Some? ==>
                  && now + granted.value <= b.deadline && granted.value <= timeout
                  && (granted.value == timeout || now + granted.value == b.deadline)
                  && (timeout > 0 ==> granted.value > 0))
  {
  }

  /** In a session a response is taken exactly up to the deadline and within both byte bounds. */
  lemma ReceivedInTime(s: State, request: nat, bytes: nat, now: int)
    requires s.budget.Some? && request in s.flight
    ensures BytesConsumed(s, request, bytes, now).1 <==>
            now <= s.budget.value.deadline && bytes <= s.budget.value.remainingBytes && bytes <= 8_388_608
  {
  }

  /** A reconstruction begins exactly when none is open and the clock leaves room for its deadline. */
  lemma BeginsIff(l: Limits, s: State, now: int)
    ensures Begun(l, s, now).1 <==>
            s.budget == None && -MAX_SAFE_INTEGER <= now && now + l.deadlineMs <= MAX_SAFE_INTEGER
    ensures Begun(l, s, now).1 ==> Begun(l, s, now).0.budget.value.deadline == now + l.deadlineMs
  {
  }

  /** In a session a lookup is answered with its key's one load, the same as before. */
  lemma LookupAnswers(l: Limits, s: State, key: Key, timeout: int, now: int)
    requires Inv(l, s)
    ensures var (t, promise) := LookedUp(s, key, timeout, now);
            && (t.budget.Some? ==> key in t.cache && t.cache[key] == promise && Loaded(key, promise) in t.session)
            && (key in s.cache ==> promise == s.cache[key])
  {
    hide Consistent, Conserved, Charged, RequestConsumed;
    RequestKeeps(l, s, timeout, now);
  }

  // ----- The client object -----

  class Client {
    const limits: Limits
    var budget: Option<Budget>
    var cache: map<Key, nat>
    var next: nat
    ghost var session: seq<Entry>
    ghost var flight: set<nat>
    ghost var carried: set<nat>

    ghost function Now(): State
      reads this
    {
      State(budget, cache, next, session, flight, carried)
    }

    /** Spent and remaining add up, each key of the session is loaded once, and each response is
        charged once, to a request of the session or one it found in flight. */
    ghost predicate Valid()
      reads this
    {
      Inv(limits, Now())
    }

    constructor (limits: Limits)
      ensures this.limits == limits && Now() == IDLE && Valid()
    {
      this.limits := limits;
      budget, cache, next, session, flight, carried := None, map[], 0, [], {}, {};
    }

    method BeginReconstruction(now: int) returns (ok: bool)
      requires Valid()
      modifies this
      ensures Valid()
      ensures (Now(), ok) == Begun(limits, old(Now()), now)
    {
      hide Inv;
      StepKeeps(limits, Now(), Begins(now));
      if budget.Some? {
        return false;
      }
      if now < -MAX_SAFE_INTEGER || now > MAX_SAFE_INTEGER || now + limits.deadlineMs > MAX_SAFE_INTEGER {
        return false;
      }
      budget := Some(Budget(now + limits.deadlineMs, limits.maxBytes, limits.maxRequests));
      cache := map[];
      session, carried := [], flight;
      return true;
    }

    method EndReconstruction()
      requires Valid()
      modifies this
      ensures Valid()
      ensures Now() == Ended(old(Now()))
    {
      hide Inv;
      StepKeeps(limits, Now(), Ends);
      budget := None;
      cache := map[];
      session, carried := [], {};
    }

    method Send()
      modifies this`next, this`flight
      ensures Now() == Sent(old(Now()))
    {
      flight := flight + {next};
      next := next + 1;
    }

    /** A request fails. */
    method Fail(ghost request: nat)
      requires Valid()
      modifies this`flight
      ensures Valid()
      ensures Now() == Failed(old(Now()), request)
    {
      hide Inv;
      StepKeeps(limits, Now(), Fails(request));
      flight := flight - {request};
    }

    method ConsumeRequest(timeout: int, now: int) returns (granted: Option<int>)
      requires Valid()
      modifies this
      ensures Valid()
      ensures (Now(), granted) == RequestConsumed(old(Now()), timeout, now)
      ensures budget.Some? ==> budget.value.remainingBytes >= 0 && budget.value.remainingRequests >= 0
    {
      hide Inv;
      StepKeeps(limits, Now(), Requests(timeout, now));
      NeverOverspent(limits, Step(limits, Now(), Requests(timeout, now)));
      if budget == None {
        Send();
        return Some(timeout);
      }
      var remainingMs := budget.value.deadline - now;
      if remainingMs <= 0 || budget.value.remainingRequests < 1 {
        return None;
      }
      budget := Some(budget.value.(remainingRequests := budget.value.remainingRequests - 1));
      session := session + [SpentRequest(next)];
      Send();
      return Some(if timeout < remainingMs then timeout else remainingMs);
    }

    method ConsumeBytes(ghost request: nat, bytes: nat, now: int) returns (ok: bool)
      requires Valid() && request in flight
      modifies this
      ensures Valid()
      ensures (Now(), ok) == BytesConsumed(old(Now()), request, bytes, now)
      ensures budget.Some? ==> budget.value.remainingBytes >= 0 && budget.value.remainingRequests >= 0
    {
      hide Inv;
      StepKeeps(limits, Now(), Receives(request, bytes, now));
      NeverOverspent(limits, Step(limits, Now(), Receives(request, bytes, now)));
      flight := flight - {request};
      if bytes > MAX_RESPONSE_BYTES {
        return false;
      }
      if budget == None {
        return true;
      }
      if now > budget.value.deadline || bytes > budget.value.remainingBytes {
        return false;
      }
      budget := Some(budget.value.(remainingBytes := budget.value.remainingBytes - bytes));
      session := session + [SpentBytes(request, bytes)];
      return true;
    }

    method CachedLookup(key: Key, timeout: int, now: int) returns (promise: nat)
      requires Valid()
      modifies this
      ensures Valid()
      ensures (Now(), promise) == LookedUp(old(Now()), key, timeout, now)
      ensures budget.Some? ==> key in cache && cache[key] == promise && Loaded(key, promise) in session
      ensures old(key in cache) ==> promise == old(cache[key])
    {
      hide Inv, RequestConsumed;
      StepKeeps(limits, Now(), LooksUp(key, timeout, now));
      LookupAnswers(limits, Now(), key, timeout, now);
      if budget == None {
        var _ := ConsumeRequest(timeout, now);
        promise := next;
        next := next + 1;
        return;
      }
      if key in cache {
        promise := cache[key];
        session := session + [Answered(key, promise)];
        return;
      }
      var _ := ConsumeRequest(timeout, now);
      promise := next;
      cache := cache[key := promise];
      next := next + 1;
      session := session + [Loaded(key, promise), Answered(key, promise)];
    }
  }

  // ----- Across sessions -----

  /** Two lookups of one key in one reconstruction are answered with one promise. */
  lemma LookupsAgree(l: Limits, events: seq<Event>, i: nat, j: nat)
    requires var session := Run(l, events).session;
             i < |session| && j < |session| && session[i].Answered? && session[j].Answered?
             && session[i].key == session[j].key
    ensures Run(l, events).session[i].promise == Run(l, events).session[j].promise
  {
    hide Run;
    RunKeeps(l, events);
    var session := Run(l, events).session;
    var a :| 0 <= a < i && session[a] == Loaded(session[i].key, session[i].promise);
    var b :| 0 <= b < j && session[b] == Loaded(session[j].key, session[j].promise);
    assert !(a < b) && !(b < a);
  }

  /** A new reconstruction has empty caches and the whole allowance; all it takes over are the
      requests still in flight. */
  lemma FreshStart(l: Limits, events: seq<Event>, now: int)
    requires Begun(l, Run(l, events), now).1
    ensures var s := Begun(l, Run(l, events), now).0;
            && Run(l, events).cache == s.cache == map[]
            && s.budget.Some? && s.budget.value.remainingBytes == l.maxBytes
            && s.budget.value.remainingRequests == l.maxRequests
            && s.carried == s.flight == Run(l, events).flight
            && forall key, timeout, at :: LookedUp(s, key, timeout, at).1 >= s.next
  {
    hide Run;
    RunKeeps(l, events);
  }

  /** A request stays in flight until it is answered or fails, whatever begins or ends meanwhile. */
  lemma StaysInFlight(l: Limits, s: State, e: Event, request: nat)
    requires request in s.flight
    ensures request in Step(l, s, e).flight <==>
            !(e.Receives? && e.request == request) && !(e.Fails? && e.request == request)
  {
  }

  /** All bytes charged are for requests of this session. */
  ghost predicate PaysOwn(session: seq<Entry>) {
    forall x :: x in session && x.SpentBytes? ==> SpentRequest(x.request) in session
  }

  /** Every charged response is for a request of the session or one it found in flight, and no
      response is charged twice. */
  lemma SessionPays(l: Limits, events: seq<Event>)
    ensures var s := Run(l, events);
            && (forall x :: x in s.session && x.SpentBytes? ==> Accounted(s, x.request))
            && (forall i, j :: 0 <= i < j < |s.session| && s.session[i].SpentBytes? && s.session[j].SpentBytes? ==>
                  s.session[i].request != s.session[j].request)
  {
    hide Run, Conserved, Consistent, CacheIsSession;
    RunKeeps(l, events);
  }

  predicate InSession(events: seq<Event>) {
    forall i :: 0 <= i < |events| ==> !events[i].Begins? && !events[i].Ends?
  }

  /** A session keeps the requests it found in flight in mind. */
  lemma {:induction false} CarriedStays(l: Limits, events: seq<Event>, more: seq<Event>)
    requires InSession(more)
    ensures Run(l, events + more).carried == Run(l, events).carried
    decreases |more|
  {
    if more == [] {
      assert events + more == events;
    } else {
      var k := |more| - 1;
      CarriedStays(l, events, more[..k]);
      assert (events + more)[..|events + more| - 1] == events + more[..k];
    }
  }

  /** A session that begins with nothing in flight pays for its own requests only. */
  lemma QuietStartPaysOwn(l: Limits, events: seq<Event>, now: int, more: seq<Event>)
    requires Begun(l, Run(l, events), now).1 && Run(l, events).flight == {} && InSession(more)
    ensures PaysOwn(Run(l, events + [Begins(now)] + more).session)
  {
    hide Run;
    RunLast(l, events, Begins(now));
    CarriedStays(l, events + [Begins(now)], more);
    SessionPays(l, events + [Begins(now)] + more);
  }

  /** With a request in flight it does not: the response is charged to the new session. */
  lemma InFlightIsCharged(l: Limits, events: seq<Event>, now: int, request: nat, bytes: nat)
    requires Begun(l, Run(l, events), now).1 && request in Run(l, events).flight
    requires bytes <= l.maxBytes && bytes <= MAX_RESPONSE_BYTES
    ensures Run(l, events + [Begins(now)] + [Receives(request, bytes, now)]).session == [SpentBytes(request, bytes)]
    ensures !PaysOwn(Run(l, events + [Begins(now)] + [Receives(request, bytes, now)]).session)
  {
    hide Run, Begun;
    var (begun, receives) := (events + [Begins(now)], Receives(request, bytes, now));
    RunLast(l, events, Begins(now));
    RunLast(l, begun, receives);
    BegunState(l, Run(l, events), now);
    var session := [SpentBytes(request, bytes)];
    assert SpentBytes(request, bytes) in session;
  }

  /** So a session is sure to pay for its own requests only, exactly if it begins with none in
      flight. */
  lemma PaysOwnIff(l: Limits, events: seq<Event>, now: int)
    requires Begun(l, Run(l, events), now).1
    ensures (forall more :: InSession(more) ==> PaysOwn(Run(l, events + [Begins(now)] + more).session))
            <==> Run(l, events).flight == {}
  {
    hide Run, Begun, PaysOwn;
    if request :| request in Run(l, events).flight {
      InFlightIsCharged(l, events, now, request, 0);
      assert InSession([Receives(request, 0, now)]);
    } else {
      forall more | InSession(more)
        ensures PaysOwn(Run(l, events + [Begins(now)] + more).session)
      {
        QuietStartPaysOwn(l, events, now, more);
      }
    }
  }

  lemma RunLast(l: Limits, events: seq<Event>, e: Event)
    ensures Run(l, events + [e]) == Step(l, Run(l, events), e)
  {
    hide Step;
    assert (events + [e])[..|events|] == events;
  }

  lemma BegunState(l: Limits, s: State, now: int)
    requires Begun(l, s, now).1
    ensures var t := Begun(l, s, now).0;
            && t.budget == Some(Budget(now + l.deadlineMs, l.maxBytes, l.maxRequests))
            && t.session == [] && t.flight == t.carried == s.flight
  {
  }
}
