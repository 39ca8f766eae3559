/** Properties of the billing helper that relate several calls or events. */
module IabHelperProperties {
  import opened Common
  import opened Billing
  import opened IabHelper

  lemma InitialIsValid()
    ensures Valid(Initial()) && !Initial().connected
  {
  }

  /** A donation click on a disconnected helper starts one connection whose
      listener carries the payment, and changes nothing else. */
  lemma ClickWhileDisconnected(s: State, pid: string)
    requires Valid(s) && !s.connected
    ensures var t := Step(s, MakePayment(pid));
      && t.outputs == [StartConnection(s.nextId)]
      && t.state == s.(conns := s.conns[s.nextId := Attempt(MakePaymentInternal(pid), MaxRetry)], nextId := s.nextId + 1)
      && Valid(t.state) && Extends(s, t.state)
  {
  }


  /** Output `i` of `t` starts connection `base + i`, whose listener will
      run the payment of `pid`. */
  predicate ConnectFor(t: Transition, i: int, base: nat, pid: string) {
    var id := base + i;
    && 0 <= i < |t.outputs|
    && t.outputs[i] == StartConnection(id)
    && id in t.state.conns
    && t.state.conns[id] == Attempt(MakePaymentInternal(pid), MaxRetry)
  }

  predicate AllClicks(es: seq<Event>) {
    forall i :: 0 <= i < |es| ==> es[i].MakePayment?
  }

  /** There is no queue of waiting callbacks and no single in-flight
      connection: every makePayment issued while disconnected starts its own
      connection, whose listener carries that payment. */
  lemma EveryDisconnectedPaymentConnects(s: State, es: seq<Event>)
    requires Valid(s) && !s.connected && AllClicks(es)
    ensures var t := Execute(s, es);
      && |t.outputs| == |es|
      && forall i :: 0 <= i < |es| ==> ConnectFor(t, i, s.nextId, es[i].productId)
  {
    ClicksWhileDisconnected(s, es);
    forall i | 0 <= i < |es|
      ensures ConnectFor(Execute(s, es), i, s.nextId, es[i].productId)
    {
      ClickConnectAt(s, es, i);
    }
  }

  /** Clicks on a disconnected helper only add connection listeners, one each. */
  lemma {:induction false} ClicksWhileDisconnected(s: State, es: seq<Event>)
    requires Valid(s) && !s.connected && AllClicks(es)
    ensures var t := Execute(s, es);
      && |t.outputs| == |es| && t.state.nextId == s.nextId + |es|
      && Extends(s, t.state) && Valid(t.state)
    decreases |es|
  {
    if es != [] {
      var first := Step(s, es[0]);
      ClickWhileDisconnected(s, es[0].productId);
      ClicksWhileDisconnected(first.state, es[1..]);
    }
  }

  /** The connection started by the `i`-th click, by induction on the clicks. */
  lemma {:induction false} ClickConnectAt(s: State, es: seq<Event>, i: int)
    requires Valid(s) && !s.connected && AllClicks(es) && 0 <= i < |es|
    ensures ConnectFor(Execute(s, es), i, s.nextId, es[i].productId)
    decreases |es|, 1
  {
    if i == 0 {
      FirstClickConnects(s, es);
    } else {
      LaterClickConnects(s, es, i);
    }
  }

  /** Executing a non-empty sequence: the first step, then the rest. */
  lemma ExecuteFirst(s: State, es: seq<Event>)
    requires es != []
    ensures var first := Step(s, es[0]);
      var rest := Execute(first.state, es[1..]);
      Execute(s, es) == Transition(rest.state, first.outputs + rest.outputs)
  {
  }

  /** The first click's connection survives the later clicks. */
  lemma FirstClickConnects(s: State, es: seq<Event>)
    requires Valid(s) && !s.connected && AllClicks(es) && es != []
    ensures ConnectFor(Execute(s, es), 0, s.nextId, es[0].productId)
  {
    var first := Step(s, es[0]);
    ClickWhileDisconnected(s, es[0].productId);
    ExecuteFirst(s, es);
    ClicksWhileDisconnected(first.state, es[1..]);
  }

  /** A later click's connection is the one it starts after the first click. */
  lemma {:induction false} LaterClickConnects(s: State, es: seq<Event>, i: int)
    requires Valid(s) && !s.connected && AllClicks(es) && 0 < i < |es|
    ensures ConnectFor(Execute(s, es), i, s.nextId, es[i].productId)
    decreases |es|, 0
  {
    var first := Step(s, es[0]);
    ClickWhileDisconnected(s, es[0].productId);
    ExecuteFirst(s, es);
    ClickConnectAt(first.state, es[1..], i - 1);
    assert es[1..][i - 1] == es[i];
    ShiftConnect(first, Execute(first.state, es[1..]), i, s.nextId, first.state.nextId, es[i].productId);
  }

  /** A connection of `rest` at position `i - 1`, behind a single output. */
  lemma ShiftConnect(head: Transition, rest: Transition, i: int, base: nat, base': nat, pid: string)
    requires |head.outputs| == 1 && 0 < i && base' == base + 1
    requires ConnectFor(rest, i - 1, base', pid)
    ensures ConnectFor(Transition(rest.state, head.outputs + rest.outputs), i, base, pid)
  {
    assert (head.outputs + rest.outputs)[i] == rest.outputs[i - 1];
  }

  /** A successful setup runs the callback while the flag is still false: a
      payment callback therefore starts a second connection for its query,
      and only afterwards is the helper marked connected. */
  lemma SetupCallbackSeesDisconnected(s: State, id: nat, pid: string)
    requires Valid(s) && !s.connected
    requires id in s.conns && s.conns[id].callback == MakePaymentInternal(pid)
    ensures var t := Step(s, SetupFinished(id, OK));
      && t.outputs == [StartConnection(s.nextId)]
      && s.nextId in t.state.conns && s.nextId != id
      && t.state.conns[s.nextId] == Attempt(QuerySkus(pid), MaxRetry)
      && t.state.connected
  {
  }

  /** A disconnect notification only clears the flag: no reconnect and no
      listener call. The next payment then has to connect again. */
  lemma DisconnectDoesNotReconnect(s: State, pid: string)
    ensures var t := Step(s, ServiceDisconnected);
      && t.outputs == []
      && t.state == s.(connected := false)
      && Step(t.state, MakePayment(pid)).outputs == [StartConnection(s.nextId)]
  {
  }

  /** Output `i` of `t` is the request issued for purchased record `p`
      under id `base + i`: its consume when connected, otherwise a connection
      whose callback will consume it. */
  predicate RequestFor(t: Transition, i: int, base: nat, connected: bool, p: Purchase) {
    var id := base + i;
    && 0 <= i < |t.outputs|
    && if connected then
         && t.outputs[i] == ConsumeAsync(id, p.purchaseToken)
         && id in t.state.consumes && t.state.consumes[id] == p
       else
         && t.outputs[i] == StartConnection(id)
         && id in t.state.conns && t.state.conns[id] == Attempt(Consume(p), MaxRetry)
  }

  /** The loop of onPurchasesUpdated sends exactly one request per purchased
      record, in list order, with consecutive fresh ids: a consume keyed by
      the record's own token when connected, otherwise a connection whose
      callback will consume that record. Records in any other state get
      nothing. */
  lemma ConsumeAllPerPurchase(s: State, ps: seq<Purchase>)
    requires Valid(s)
    ensures var t := ConsumeAll(s, ps);
      var bought := PurchasedRecords(ps);
      forall i :: 0 <= i < |bought| ==> RequestFor(t, i, s.nextId, s.connected, bought[i])
  {
    forall i | 0 <= i < |PurchasedRecords(ps)|
      ensures RequestFor(ConsumeAll(s, ps), i, s.nextId, s.connected, PurchasedRecords(ps)[i])
    {
      ConsumeAllRequestAt(s, ps, i);
    }
  }

  /** The request for the `i`-th purchased record, by induction on the list. */
  lemma {:induction false} ConsumeAllRequestAt(s: State, ps: seq<Purchase>, i: int)
    requires Valid(s) && 0 <= i < |PurchasedRecords(ps)|
    ensures RequestFor(ConsumeAll(s, ps), i, s.nextId, s.connected, PurchasedRecords(ps)[i])
    decreases |ps|, 1
  {
    if !ps[0].purchaseState.Purchased? {
      SkippedRecordDoesNothing(s, ps);
      ConsumeAllRequestAt(s, ps[1..], i);
    } else if i == 0 {
      HeadRequest(s, ps);
    } else {
      LaterRequest(s, ps, i);
    }
  }

  /** After a purchased head, the later requests are those of the rest of the
      list, one place and one id further on. */
  lemma {:induction false} LaterRequest(s: State, ps: seq<Purchase>, i: int)
    requires Valid(s) && ps != [] && ps[0].purchaseState.Purchased? && 0 < i < |PurchasedRecords(ps)|
    ensures RequestFor(ConsumeAll(s, ps), i, s.nextId, s.connected, PurchasedRecords(ps)[i])
    decreases |ps|, 0
  {
    var head := ConsumeOne(s, ps[0]);
    PurchasedHead(s, ps);
    ConsumeAllRequestAt(head.state, ps[1..], i - 1);
    ConsIndex(ps[0], PurchasedRecords(ps[1..]), i);
    ShiftRequest(head, ConsumeAll(head.state, ps[1..]), i, s.nextId, head.state.nextId, head.state.connected, PurchasedRecords(ps[1..])[i - 1]);
  }

  /** A purchased record at the head of the list gets the first request. */
  lemma HeadRequest(s: State, ps: seq<Purchase>)
    requires Valid(s) && ps != [] && ps[0].purchaseState.Purchased?
    ensures RequestFor(ConsumeAll(s, ps), 0, s.nextId, s.connected, PurchasedRecords(ps)[0])
  {
    var head := ConsumeOne(s, ps[0]);
    var rest := ConsumeAll(head.state, ps[1..]);
    PurchasedHead(s, ps);
    ConsumeAllExtends(head.state, ps[1..]);
  }

  /** The loop over a list with a purchased head: the head's request, then
      the loop over the rest from the state the head left. */
  lemma PurchasedHead(s: State, ps: seq<Purchase>)
    requires ps != [] && ps[0].purchaseState.Purchased?
    ensures var head := ConsumeOne(s, ps[0]);
      var rest := ConsumeAll(head.state, ps[1..]);
      && ConsumeAll(s, ps) == Transition(rest.state, head.outputs + rest.outputs)
      && PurchasedRecords(ps) == [ps[0]] + PurchasedRecords(ps[1..])
  {
  }

  lemma ConsIndex<T>(x: T, tail: seq<T>, i: int)
    requires 0 < i <= |tail|
    ensures ([x] + tail)[i] == tail[i - 1]
  {
  }

  /** A request of `rest` at position `i - 1`, behind a single output. */
  lemma ShiftRequest(head: Transition, rest: Transition, i: int, base: nat, base': nat, connected: bool, p: Purchase)
    requires |head.outputs| == 1 && 0 < i && base' == base + 1
    requires RequestFor(rest, i - 1, base', connected, p)
    ensures RequestFor(Transition(rest.state, head.outputs + rest.outputs), i, base, connected, p)
  {
    assert (head.outputs + rest.outputs)[i] == rest.outputs[i - 1];
  }

  /** A record that is not PURCHASED at the head of the list changes nothing. */
  lemma SkippedRecordDoesNothing(s: State, ps: seq<Purchase>)
    requires ps != [] && !ps[0].purchaseState.Purchased?
    ensures ConsumeAll(s, ps) == ConsumeAll(s, ps[1..])
    ensures PurchasedRecords(ps) == PurchasedRecords(ps[1..])
  {
    var rest := ConsumeAll(s, ps[1..]);
    assert ConsumeAll(s, ps) == Transition(rest.state, [] + rest.outputs);
    assert [] + rest.outputs == rest.outputs;
  }

  /** A purchases update that failed, or carried no list, is reported as one
      failure and consumes nothing; an OK update with an empty list does
      nothing at all. */
  lemma PurchasesUpdateWithoutRecords(s: State, code: int)
    ensures Step(s, PurchasesUpdated(code, None)) == Transition(s, [DonationFailed])
    ensures code != OK ==> forall ps :: Step(s, PurchasesUpdated(code, Some(ps))) == Transition(s, [DonationFailed])
    ensures Step(s, PurchasesUpdated(OK, Some([]))) == Transition(s, [])
  {
  }

  /** A listener success is only ever reported for the answer to a pending
      consume request whose echoed token is the purchase's own, and names
      that purchase's sku. */
  lemma SuccessOnlyAfterMatchingConsume(s: State, e: Event, sku: string)
    requires DonationSuccess(sku) in Step(s, e).outputs
    ensures e.ConsumeResponse? && e.code == OK && e.request in s.consumes
    ensures s.consumes[e.request].purchaseToken == e.purchaseToken
    ensures s.consumes[e.request].sku == sku
  {
  }

  /** A token mismatch is always an integrity failure, never a success or a
      failure report. */
  lemma TokenMismatchIsFatal(s: State, id: nat, code: int, token: string)
    requires id in s.consumes && s.consumes[id].purchaseToken != token
    ensures Step(s, ConsumeResponse(id, code, token)).outputs == [Fatal]
  {
  }

  /** A donation through a connected helper: one query for exactly the
      product id, one launch for the single item found, one consume of the
      purchased record by its token, and one success naming the product. */
  lemma DonationSucceeds(s: State, pid: string, token: string)
    requires Valid(s) && s.connected
    ensures var q := s.nextId;
      var item := SkuDetails(pid);
      var t1 := Step(s, MakePayment(pid));
      var t2 := Step(t1.state, SkuDetailsResponse(q, OK, Some([item])));
      var t3 := Step(t2.state, PurchasesUpdated(OK, Some([Purchase(pid, token, Purchased)])));
      var t4 := Step(t3.state, ConsumeResponse(q + 1, OK, token));
      && t1.outputs == [QuerySkuDetails(q, [pid], InApp)]
      && t2.outputs == [LaunchBillingFlow(item)]
      && t3.outputs == [ConsumeAsync(q + 1, token)]
      && t4.outputs == [DonationSuccess(pid)]
  {
    var q := s.nextId;
    var t1 := Step(s, MakePayment(pid));
    ConnectedClickQueries(s, pid);
    var t2 := Step(t1.state, SkuDetailsResponse(q, OK, Some([SkuDetails(pid)])));
    OneItemLaunches(t1.state, q, SkuDetails(pid));
    var p := Purchase(pid, token, Purchased);
    ConnectedUpdateConsumes(t2.state, p);
  }

  /** The first step of a donation on a connected helper: one query. */
  lemma ConnectedClickQueries(s: State, pid: string)
    requires Valid(s) && s.connected
    ensures var t := Step(s, MakePayment(pid));
      && t.outputs == [QuerySkuDetails(s.nextId, [pid], InApp)]
      && t.state.connected && t.state.nextId == s.nextId + 1 && Valid(t.state)
      && s.nextId in t.state.queries
  {
    assert Step(s, MakePayment(pid)) == Invoke(s, QuerySkus(pid));
  }

  /** An OK answer with exactly one item launches the billing flow for it on
      a connected helper, and leaves the flag and the id counter alone. */
  lemma OneItemLaunches(s: State, q: nat, item: SkuDetails)
    requires Valid(s) && s.connected && q in s.queries
    ensures var t := Step(s, SkuDetailsResponse(q, OK, Some([item])));
      && t.outputs == [LaunchBillingFlow(item)]
      && t.state.connected && t.state.nextId == s.nextId && Valid(t.state)
  {
  }

  /** An OK update with one purchased record, on a connected helper, sends
      its consume under the next id; the matching answer reports success. */
  lemma ConnectedUpdateConsumes(s: State, p: Purchase)
    requires Valid(s) && s.connected && p.purchaseState.Purchased?
    ensures var t := Step(s, PurchasesUpdated(OK, Some([p])));
      && t.outputs == [ConsumeAsync(s.nextId, p.purchaseToken)]
      && Step(t.state, ConsumeResponse(s.nextId, OK, p.purchaseToken)).outputs == [DonationSuccess(p.sku)]
  {
    assert PurchasedRecords([p]) == [p] by {
      assert [p][1..] == [];
    }
    var t := ConsumeAll(s, [p]);
    ConsumeAllPerPurchase(s, [p]);
    assert RequestFor(t, 0, s.nextId, true, p);
  }

  /** A query that finds no item (or several) reports one failure and
      launches nothing. */
  lemma AmbiguousQueryFails(s: State, q: nat, items: seq<SkuDetails>)
    requires q in s.queries && |items| != 1
    ensures Step(s, SkuDetailsResponse(q, OK, Some(items))).outputs == [DonationFailed]
    ensures Step(s, SkuDetailsResponse(q, OK, None)).outputs == [DonationFailed]
  {
  }
}
