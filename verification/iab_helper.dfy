/** The Google in-app billing helper as a pure state machine.

    The helper owns one flag, `connected`, and hands closures to the billing
    service, which calls them back later. Here every closure is a `Callback`
    value and every callback the service still owes the helper is an entry in
    one of the pending maps of `State`, keyed by a fresh request id. The
    service's callbacks become `Event`s carrying that id, and everything the
    helper does in response (requests to the service, timer registrations,
    listener calls) becomes a sequence of `Output`s. */
module IabHelper {
  import opened Common
  import opened Billing

  /** Default retry budget of a connection chain. */
  const MaxRetry: nat := 20

  /** Numerator of the retry delay, in milliseconds. */
  const RetryBaseDelayMs: nat := 10000

  /** Work deferred until the billing connection is ready. */
  datatype Callback =
    | MakePaymentInternal(productId: string)  // body of makePayment
    | QuerySkus(productId: string)             // sku query inside makePaymentInternal
    | Launch(details: SkuDetails)              // launchBillingFlow after a one-sku answer
    | Consume(purchase: Purchase)              // consumeAsync for one purchased record

  /** One connection attempt (a registered setup listener) or one scheduled
      retry: the callback it will run and the retries it has left. */
  datatype Attempt = Attempt(callback: Callback, retry: nat)

  datatype State = State(
    connected: bool,
    conns: map<nat, Attempt>,      // setup listeners registered by startConnection
    timers: map<nat, Attempt>,     // retries posted on the handler, not yet due
    queries: map<nat, string>,     // sku queries awaiting their answer
    consumes: map<nat, Purchase>,  // consume requests awaiting their answer
    nextId: nat)                   // source of fresh request ids

  /** The helper right after construction. */
  function Initial(): State {
    State(false, map[], map[], map[], map[], 0)
  }

  /** What the billing service, the handler or the host delivers to the helper. */
  datatype Event =
    | MakePayment(productId: string)
    | SetupFinished(conn: nat, code: int)
    | ServiceDisconnected
    | RetryDue(timer: nat)
    | SkuDetailsResponse(query: nat, code: int, details: Option<seq<SkuDetails>>)
    | ConsumeResponse(request: nat, code: int, purchaseToken: string)
    | PurchasesUpdated(code: int, purchases: Option<seq<Purchase>>)

  /** What the helper does in response: billing requests, a posted retry,
      listener calls, or the uncaught RuntimeException of a token mismatch. */
  datatype Output =
    | StartConnection(conn: nat)
    | ScheduleRetry(timer: nat, delayMs: nat, retry: nat)
    | QuerySkuDetails(query: nat, skus: seq<string>, skuType: SkuType)
    | LaunchBillingFlow(details: SkuDetails)
    | ConsumeAsync(request: nat, purchaseToken: string)
    | DonationFailed
    | DonationSuccess(productId: string)
    | Fatal
  {
    /** A call on GoogleIABListener. */
    predicate IsListenerCall() {
      DonationFailed? || DonationSuccess?
    }

    /** A request sent to the billing client. */
    predicate IsBillingRequest() {
      StartConnection? || QuerySkuDetails? || LaunchBillingFlow? || ConsumeAsync?
    }
  }

  datatype Transition = Transition(state: State, outputs: seq<Output>)

  /** Every pending id was handed out by `nextId`, and retry budgets stay
      within the default: a scheduled retry always has strictly less left. */
  predicate Valid(s: State) {
    && (forall id :: id in s.conns ==> id < s.nextId && s.conns[id].retry <= MaxRetry)
    && (forall id :: id in s.timers ==> id < s.nextId && s.timers[id].retry < MaxRetry)
    && (forall id :: id in s.queries ==> id < s.nextId)
    && (forall id :: id in s.consumes ==> id < s.nextId)
  }

  /** `s'` only adds requests to `s`: the flag and the timers are unchanged,
      and every pending request of `s` is still pending, unchanged, in `s'`. */
  predicate Extends(s: State, s': State) {
    && s'.connected == s.connected
    && s.nextId <= s'.nextId
    && s'.timers == s.timers
    && (forall id :: id in s.conns ==> id in s'.conns && s'.conns[id] == s.conns[id])
    && (forall id :: id in s.queries ==> id in s'.queries && s'.queries[id] == s.queries[id])
    && (forall id :: id in s.consumes ==> id in s'.consumes && s'.consumes[id] == s.consumes[id])
  }

  /** The delay before the retry posted by an attempt with `retry` left:
      integer division, so it is never more than the base delay and, within
      the default budget, never less than 500 ms. */
  function RetryDelay(retry: nat): (d: nat)
    requires retry > 0
    ensures d <= RetryBaseDelayMs
    ensures retry <= MaxRetry ==> RetryBaseDelayMs / MaxRetry <= d
  {
    DivAntitone(RetryBaseDelayMs, retry, 1);
    if retry <= MaxRetry then
      DivAntitone(RetryBaseDelayMs, MaxRetry, retry);
      RetryBaseDelayMs / retry
    else
      RetryBaseDelayMs / retry
  }

  /** Multiplying by a non-negative factor keeps the order. */
  lemma MulMonotone(q: nat, y: nat, x: nat)
    requires y <= x
    ensures q * y <= q * x
  {
    assert q * x == q * y + q * (x - y);
  }

  /** Integer division by a larger divisor never gives more. */
  lemma DivAntitone(n: nat, x: nat, y: nat)
    requires 0 < y <= x
    ensures n / x <= n / y
  {
    var q := n / x;
    var p := n / y;
    assert q * x + n % x == n;
    MulMonotone(q, y, x);
    assert p * y + n % y == n;
    if q > p {
      MulMonotone(y, p + 1, q);
      assert false;
    }
  }

  /** Termination measure of the EnsureConnected/Invoke recursion: a payment
      callback runs one more ensureConnected, every other callback none. */
  function Rank(k: Callback): nat {
    if k.MakePaymentInternal? then 1 else 0
  }

  /** connect(callback, retry): build a client and register a setup listener
      that will run `k` with `retry` retries left. */
  function Connect(s: State, k: Callback, retry: nat): (t: Transition)
    ensures t.outputs == [StartConnection(s.nextId)]
    ensures t.state.nextId == s.nextId + 1 && t.state.connected == s.connected
    ensures s.nextId in t.state.conns && t.state.conns[s.nextId] == Attempt(k, retry)
    ensures t.state.timers == s.timers && t.state.queries == s.queries && t.state.consumes == s.consumes
    ensures Valid(s) ==> Extends(s, t.state)
    ensures Valid(s) && retry <= MaxRetry ==> Valid(t.state)
  {
    var id := s.nextId;
    Transition(s.(conns := s.conns[id := Attempt(k, retry)], nextId := id + 1), [StartConnection(id)])
  }

  /** ensureConnected(k): run `k` now when connected, otherwise start a
      fresh connection chain with the default retry budget. There is no
      queue of waiting callbacks: every call while disconnected starts its
      own connection. */
  function EnsureConnected(s: State, k: Callback): (t: Transition)
    ensures |t.outputs| == 1 && t.outputs[0].IsBillingRequest()
    ensures Valid(s) ==> Extends(s, t.state) && Valid(t.state)
    ensures s.connected ==> t == Invoke(s, k)
    ensures !s.connected ==>
      && t.outputs == [StartConnection(s.nextId)]
      && t.state == s.(conns := s.conns[s.nextId := Attempt(k, MaxRetry)], nextId := s.nextId + 1)
    decreases Rank(k), 1
  {
    if s.connected then Invoke(s, k) else Connect(s, k, MaxRetry)
  }

  /** Run a deferred callback. Each callback issues exactly one request to
      the billing client and never calls the listener. */
  function Invoke(s: State, k: Callback): (t: Transition)
    ensures |t.outputs| == 1 && t.outputs[0].IsBillingRequest()
    ensures Valid(s) ==> Extends(s, t.state) && Valid(t.state)
    ensures t.outputs[0].StartConnection? <==> !s.connected && k.MakePaymentInternal?
    decreases Rank(k), 0
  {
    match k
    case MakePaymentInternal(pid) =>
      EnsureConnected(s, QuerySkus(pid))
    case QuerySkus(pid) =>
      var id := s.nextId;
      Transition(s.(queries := s.queries[id := pid], nextId := id + 1), [QuerySkuDetails(id, [pid], InApp)])
    case Launch(d) =>
      Transition(s, [LaunchBillingFlow(d)])
    case Consume(p) =>
      var id := s.nextId;
      Transition(s.(consumes := s.consumes[id := p], nextId := id + 1), [ConsumeAsync(id, p.purchaseToken)])
  }

  /** A failed setup with retries left: clear the flag and post a retry
      with one retry fewer after 10000/retry ms. The callback does not run. */
  function PostRetry(s: State, a: Attempt): (t: Transition)
    requires a.retry > 0
    ensures t.outputs == [ScheduleRetry(s.nextId, RetryDelay(a.retry), a.retry - 1)]
    ensures s.nextId in t.state.timers && t.state.timers[s.nextId] == Attempt(a.callback, a.retry - 1)
    ensures t.state.timers == s.timers[s.nextId := Attempt(a.callback, a.retry - 1)]
    ensures t.state.conns == s.conns && t.state.queries == s.queries && t.state.consumes == s.consumes
    ensures t.state.nextId == s.nextId + 1 && !t.state.connected
    ensures Valid(s) && a.retry <= MaxRetry ==> Valid(t.state)
  {
    var id := s.nextId;
    Transition(
      s.(connected := false, timers := s.timers[id := Attempt(a.callback, a.retry - 1)], nextId := id + 1),
      [ScheduleRetry(id, RetryDelay(a.retry), a.retry - 1)])
  }

  /** A failed setup with no retries left: the callback runs anyway, and the
      flag is cleared afterwards. */
  function GiveUp(s: State, a: Attempt): (t: Transition)
    ensures var run := Invoke(s, a.callback);
      t.outputs == run.outputs && t.state == run.state.(connected := false)
    ensures |t.outputs| == 1 && t.outputs[0].IsBillingRequest() && !t.state.connected
    ensures t.outputs[0].StartConnection? ==> a.callback.MakePaymentInternal?
    ensures Valid(s) ==> Valid(t.state)
  {
    var run := Invoke(s, a.callback);
    Transition(run.state.(connected := false), run.outputs)
  }

  /** onBillingSetupFinished for the listener registered as `a`. On success
      the callback runs first, in the state as it was (so a nested
      ensureConnected still sees the helper disconnected), and only then is
      the flag set. On failure the flag is cleared and either a retry with
      one fewer attempt is posted, or, with no retries left, the callback
      runs anyway. */
  function OnSetupFinished(s: State, a: Attempt, code: int): (t: Transition)
    ensures t.state.connected <==> code == OK
    ensures code == OK ==>
      var run := Invoke(s, a.callback);
      t.outputs == run.outputs && t.state == run.state.(connected := true)
    ensures code != OK && a.retry > 0 ==> t == PostRetry(s, a)
    ensures code != OK && a.retry == 0 ==> t == GiveUp(s, a)
    ensures forall o :: o in t.outputs ==> !o.IsListenerCall() && o != Fatal
    ensures Valid(s) && a.retry <= MaxRetry ==> Valid(t.state)
  {
    if code == OK then
      var run := Invoke(s, a.callback);
      Transition(run.state.(connected := true), run.outputs)
    else if a.retry > 0 then
      PostRetry(s, a)
    else
      GiveUp(s, a)
  }

  /** The answer to the sku query of makePaymentInternal: anything but an OK
      answer holding exactly one item reports a failure; one item is
      launched, after checking the connection again. */
  function OnSkuDetails(s: State, code: int, details: Option<seq<SkuDetails>>): (t: Transition)
    ensures t.outputs == [DonationFailed] <==> code != OK || details.None? || |details.value| != 1
    ensures t.outputs == [DonationFailed] ==> t.state == s
    ensures code == OK && details.Some? && |details.value| == 1 ==>
      && (Valid(s) ==> Extends(s, t.state))
      && (s.connected ==> t.outputs == [LaunchBillingFlow(details.value[0])])
      && (!s.connected ==> t.outputs == [StartConnection(s.nextId)]
                           && s.nextId in t.state.conns
                           && t.state.conns[s.nextId] == Attempt(Launch(details.value[0]), MaxRetry))
    ensures forall o :: o in t.outputs ==> !o.DonationSuccess? && o != Fatal
    ensures Valid(s) ==> Valid(t.state)
  {
    if code != OK then
      Transition(s, [DonationFailed])
    else if details.None? || |details.value| != 1 then
      Transition(s, [DonationFailed])
    else
      EnsureConnected(s, Launch(details.value[0]))
  }

  /** The answer to a consume request for `p`: an echoed token other than the
      purchase's own is an integrity violation (an uncaught exception);
      otherwise the response code decides between success and failure. */
  function OnConsumed(s: State, p: Purchase, code: int, token: string): (t: Transition)
    ensures t.state == s && |t.outputs| == 1
    ensures t.outputs[0] == Fatal <==> token != p.purchaseToken
    ensures t.outputs[0].DonationSuccess? <==> token == p.purchaseToken && code == OK
    ensures t.outputs[0].DonationSuccess? ==> t.outputs[0].productId == p.sku
    ensures t.outputs[0] == DonationFailed <==> token == p.purchaseToken && code != OK
  {
    if p.purchaseToken != token then
      Transition(s, [Fatal])
    else if code != OK then
      Transition(s, [DonationFailed])
    else
      Transition(s, [DonationSuccess(p.sku)])
  }

  /** The records of `ps` that are in the PURCHASED state, in order. */
  function PurchasedRecords(ps: seq<Purchase>): (r: seq<Purchase>)
    ensures |r| <= |ps|
    ensures forall p :: p in r ==> p in ps && p.purchaseState.Purchased?
    ensures forall p :: p in ps && p.purchaseState.Purchased? ==> p in r
  {
    if ps == [] then []
    else if ps[0].purchaseState.Purchased? then [ps[0]] + PurchasedRecords(ps[1..])
    else PurchasedRecords(ps[1..])
  }

  /** The selection keeps the order of the list: the records of a
      concatenation are those of its first part, then those of its second;
      with the one-record case this pins PurchasedRecords down. */
  lemma {:induction false} PurchasedRecordsAppend(a: seq<Purchase>, b: seq<Purchase>)
    ensures PurchasedRecords(a + b) == PurchasedRecords(a) + PurchasedRecords(b)
    decreases |a|
  {
    if a == [] {
      assert a + b == b;
    } else {
      assert (a + b)[1..] == a[1..] + b;
      PurchasedRecordsAppend(a[1..], b);
    }
  }

  /** Each PURCHASED record is kept as often as it occurs, and no other
      record is kept: one consume per purchased record, duplicates included. */
  lemma {:induction false} PurchasedRecordsCount(ps: seq<Purchase>)
    ensures forall p :: multiset(PurchasedRecords(ps))[p] == if p.purchaseState.Purchased? then multiset(ps)[p] else 0
    decreases |ps|
  {
    if ps != [] {
      PurchasedRecordsCount(ps[1..]);
      assert ps == [ps[0]] + ps[1..];
      assert multiset(ps) == multiset([ps[0]]) + multiset(ps[1..]);
    }
  }

  /** A single record is kept exactly when it is PURCHASED. */
  lemma PurchasedRecordsOne(p: Purchase)
    ensures PurchasedRecords([p]) == if p.purchaseState.Purchased? then [p] else []
  {
  }

  /** One iteration of the loop of onPurchasesUpdated: a record that is not
      PURCHASED is skipped; a purchased one is consumed by its own token,
      after its own ensureConnected. */
  function ConsumeOne(s: State, p: Purchase): (t: Transition)
    ensures !p.purchaseState.Purchased? ==> t == Transition(s, [])
    ensures p.purchaseState.Purchased? ==> |t.outputs| == 1 && t.state.nextId == s.nextId + 1
    ensures p.purchaseState.Purchased? && s.connected ==>
      && t.outputs == [ConsumeAsync(s.nextId, p.purchaseToken)]
      && s.nextId in t.state.consumes && t.state.consumes[s.nextId] == p
    ensures p.purchaseState.Purchased? && !s.connected ==>
      && t.outputs == [StartConnection(s.nextId)]
      && s.nextId in t.state.conns && t.state.conns[s.nextId] == Attempt(Consume(p), MaxRetry)
    ensures forall o :: o in t.outputs ==> o.IsBillingRequest()
    ensures t.state.connected == s.connected && t.state.timers == s.timers
    ensures Valid(s) ==> Extends(s, t.state) && Valid(t.state)
  {
    if p.purchaseState.Purchased? then EnsureConnected(s, Consume(p)) else Transition(s, [])
  }

  /** The loop of onPurchasesUpdated over a non-null list, in list order. */
  function ConsumeAll(s: State, ps: seq<Purchase>): (t: Transition)
    ensures |t.outputs| == |PurchasedRecords(ps)|
    ensures forall o :: o in t.outputs ==> o.IsBillingRequest()
    ensures t.state.nextId == s.nextId + |PurchasedRecords(ps)|
    ensures t.state.connected == s.connected && t.state.timers == s.timers
    decreases |ps|
  {
    if ps == [] then
      Transition(s, [])
    else
      var head := ConsumeOne(s, ps[0]);
      var rest := ConsumeAll(head.state, ps[1..]);
      Transition(rest.state, head.outputs + rest.outputs)
  }

  /** The loop only adds fresh requests: every pending request of `s` stays
      pending, unchanged, and the ids stay fresh. */
  lemma {:induction false} ConsumeAllExtends(s: State, ps: seq<Purchase>)
    ensures Valid(s) ==> Extends(s, ConsumeAll(s, ps).state) && Valid(ConsumeAll(s, ps).state)
    decreases |ps|
  {
    if ps != [] && Valid(s) {
      ConsumeAllExtends(ConsumeOne(s, ps[0]).state, ps[1..]);
    }
  }

  /** onPurchasesUpdated: a failed update or a missing list is one failure;
      otherwise every purchased record is consumed. */
  function OnPurchasesUpdated(s: State, code: int, purchases: Option<seq<Purchase>>): (t: Transition)
    ensures code != OK || purchases.None? ==> t.outputs == [DonationFailed] && t.state == s
    ensures code == OK && purchases.Some? ==>
      && |t.outputs| == |PurchasedRecords(purchases.value)|
      && forall o :: o in t.outputs ==> !o.IsListenerCall() && o != Fatal
    ensures Valid(s) ==> Valid(t.state)
  {
    if code != OK || purchases.None? then
      Transition(s, [DonationFailed])
    else
      ConsumeAllExtends(s, purchases.value);
      ConsumeAll(s, purchases.value)
  }

  /** The helper's reaction to one event. Responses for ids the helper is not
      waiting on are ignored; the billing service never sends them. */
  function Step(s: State, e: Event): (t: Transition)
    ensures Valid(s) ==> Valid(t.state)
    ensures forall o :: o in t.outputs && o.DonationSuccess? ==>
      && e.ConsumeResponse? && e.code == OK && e.request in s.consumes
      && s.consumes[e.request].purchaseToken == e.purchaseToken
      && o.productId == s.consumes[e.request].sku
    ensures Fatal in t.outputs ==>
      && e.ConsumeResponse? && e.request in s.consumes
      && s.consumes[e.request].purchaseToken != e.purchaseToken
  {
    match e
    case MakePayment(pid) =>
      EnsureConnected(s, MakePaymentInternal(pid))
    case SetupFinished(id, code) =>
      if id in s.conns then OnSetupFinished(s, s.conns[id], code) else Transition(s, [])
    case ServiceDisconnected =>
      Transition(s.(connected := false), [])
    case RetryDue(id) =>
      if id in s.timers then
        Connect(s.(timers := s.timers - {id}), s.timers[id].callback, s.timers[id].retry)
      else Transition(s, [])
    case SkuDetailsResponse(id, code, details) =>
      if id in s.queries then OnSkuDetails(s.(queries := s.queries - {id}), code, details)
      else Transition(s, [])
    case ConsumeResponse(id, code, token) =>
      if id in s.consumes then OnConsumed(s.(consumes := s.consumes - {id}), s.consumes[id], code, token)
      else Transition(s, [])
    case PurchasesUpdated(code, purchases) =>
      OnPurchasesUpdated(s, code, purchases)
  }

  /** Feed a sequence of events to the helper, collecting every output. */
  function Execute(s: State, events: seq<Event>): (t: Transition)
    ensures Valid(s) ==> Valid(t.state)
    decreases |events|
  {
    if events == [] then Transition(s, [])
    else
      var first := Step(s, events[0]);
      var rest := Execute(first.state, events[1..]);
      Transition(rest.state, first.outputs + rest.outputs)
  }
}
