/**
 * pal::luna::ClientImpl: a client of the Luna service bus that keeps the
 * one-shot calls still waiting for their reply and the open subscriptions.
 *
 * The bus library is an oracle: each bus request is given the success flag
 * and the message token the library would have produced.  Running a
 * callback, and asking the bus to cancel a request, are events appended to
 * the client's log.
 */
module LunaClient {
  import opened Wrappers
  import opened Sequences

  datatype Bus = Private | Public

  datatype Params = Params(bus: Bus, name: string, appid: string)

  /** A callback handed to Call or Subscribe; base::DoNothing() is the default one. */
  datatype Callback = DoNothing | Handler(id: nat)

  /** A one-shot call waiting for its reply. */
  datatype Response = Response(callback: Callback, token: nat, uri: string, param: string, onCancelValue: string)

  /** An open subscription. */
  datatype Subscription = Subscription(callback: Callback, token: nat, uri: string, param: string)

  datatype Event =
    | Delivered(callback: Callback, payload: string)  // the callback ran with this payload
    | BusCancel(token: nat)                           // LSCallCancel was issued for this message token

  /** Which registration call the constructor makes. */
  datatype Registration =
    | RegisterPubPriv(name: string, bus: Bus)
    | RegisterApplicationService(name: string, appid: string)

  /** The subscription key is the message token cast to a 32-bit `unsigned`. */
  const UnsignedRange: nat := 0x1_0000_0000

  function UnsignedToken(t: nat): (u: nat)
    ensures u < UnsignedRange
    ensures t < UnsignedRange ==> u == t
  {
    t % UnsignedRange
  }

  /** The log written by CancelWaitingCalls when it visits the pending calls in `order`. */
  function CancelTrace(pending: map<nat, Response>, order: seq<nat>): (r: seq<Event>)
    requires forall k :: k in order ==> k in pending
  {
    if order == [] then []
    else
      var k := order[|order| - 1];
      CancelTrace(pending, order[..|order| - 1])
        + [BusCancel(pending[k].token), Delivered(pending[k].callback, pending[k].onCancelValue)]
  }

  /** The log written by CancelAllSubscriptions when it visits the subscriptions in `order`. */
  function UnsubscribeTrace(subs: map<nat, Subscription>, order: seq<nat>): (r: seq<Event>)
    requires forall k :: k in order ==> k in subs
  {
    if order == [] then []
    else UnsubscribeTrace(subs, order[..|order| - 1]) + [BusCancel(subs[order[|order| - 1]].token)]
  }

  /**
   * Cancelling the waiting calls in any order cancels each one on the bus and
   * runs each one's callback exactly with that record's own on-cancel value,
   * and does nothing else.
   */
  lemma {:induction false} CancelTraceDeliversEach(pending: map<nat, Response>, order: seq<nat>)
    requires forall k :: k in order ==> k in pending
    ensures |CancelTrace(pending, order)| == 2 * |order|
    ensures forall i :: 0 <= i < |order| ==>
              CancelTrace(pending, order)[2 * i] == BusCancel(pending[order[i]].token) &&
              CancelTrace(pending, order)[2 * i + 1] ==
                Delivered(pending[order[i]].callback, pending[order[i]].onCancelValue)
    decreases |order|
  {
    if order != [] {
      var init := order[..|order| - 1];
      assert forall k :: k in init ==> k in order;
      CancelTraceDeliversEach(pending, init);
      forall i | 0 <= i < |init| ensures order[i] == init[i] { }
    }
  }

  /** Every pending call is cancelled once: the trace of a full iteration has one delivery per record. */
  lemma CancelTraceCoversPending(pending: map<nat, Response>, order: seq<nat>)
    requires IsOrderOf(order, pending.Keys)
    ensures |CancelTrace(pending, order)| == 2 * |pending|
    ensures forall k :: k in pending ==>
              Delivered(pending[k].callback, pending[k].onCancelValue) in CancelTrace(pending, order)
  {
    OrderLength(order, pending.Keys);
    CancelTraceDeliversEach(pending, order);
    forall k | k in pending
      ensures Delivered(pending[k].callback, pending[k].onCancelValue) in CancelTrace(pending, order)
    {
      var i :| 0 <= i < |order| && order[i] == k;
      assert CancelTrace(pending, order)[2 * i + 1] == Delivered(pending[k].callback, pending[k].onCancelValue);
    }
  }

  /** Cancelling the subscriptions in any order issues one bus cancel per visited subscription, with its own token. */
  lemma {:induction false} UnsubscribeTraceCancelsEach(subs: map<nat, Subscription>, order: seq<nat>)
    requires forall k :: k in order ==> k in subs
    ensures |UnsubscribeTrace(subs, order)| == |order|
    ensures forall i :: 0 <= i < |order| ==> UnsubscribeTrace(subs, order)[i] == BusCancel(subs[order[i]].token)
    decreases |order|
  {
    if order != [] {
      var init := order[..|order| - 1];
      assert forall k :: k in init ==> k in order;
      UnsubscribeTraceCancelsEach(subs, init);
      forall i | 0 <= i < |init| ensures order[i] == init[i] { }
    }
  }

  /** A full iteration cancels every subscription on the bus, one log entry per subscription. */
  lemma UnsubscribeTraceCoversSubscriptions(subs: map<nat, Subscription>, order: seq<nat>)
    requires IsOrderOf(order, subs.Keys)
    ensures |UnsubscribeTrace(subs, order)| == |subs|
    ensures forall k :: k in subs ==> BusCancel(subs[k].token) in UnsubscribeTrace(subs, order)
  {
    OrderLength(order, subs.Keys);
    UnsubscribeTraceCancelsEach(subs, order);
    forall k | k in subs
      ensures BusCancel(subs[k].token) in UnsubscribeTrace(subs, order)
    {
      var i :| 0 <= i < |order| && order[i] == k;
      assert UnsubscribeTrace(subs, order)[i] == BusCancel(subs[k].token);
    }
  }

  /** The walk over the waiting calls in the map's iteration order, cancelling each and delivering its on-cancel value. */
  method CancelWalk(pending: map<nat, Response>) returns (out: seq<Event>, ghost order: seq<nat>)
    ensures IsOrderOf(order, pending.Keys)
    ensures out == CancelTrace(pending, order)
  {
    out := [];
    order := [];
    var remaining := pending.Keys;
    while remaining != {}
      invariant remaining <= pending.Keys
      invariant Distinct(order)
      invariant forall k :: k in order <==> k in pending && k !in remaining
      invariant out == CancelTrace(pending, order)
      decreases remaining
    {
      var k :| k in remaining;
      var r := pending[k];
      out := out + [BusCancel(r.token), Delivered(r.callback, r.onCancelValue)];
      assert (order + [k])[..|order|] == order;
      order := order + [k];
      remaining := remaining - {k};
    }
  }

  /** The walk over the subscriptions in the map's iteration order, cancelling each on the bus. */
  method UnsubscribeWalk(subs: map<nat, Subscription>) returns (out: seq<Event>, ghost order: seq<nat>)
    ensures IsOrderOf(order, subs.Keys)
    ensures out == UnsubscribeTrace(subs, order)
  {
    out := [];
    order := [];
    var remaining := subs.Keys;
    while remaining != {}
      invariant remaining <= subs.Keys
      invariant Distinct(order)
      invariant forall k :: k in order <==> k in subs && k !in remaining
      invariant out == UnsubscribeTrace(subs, order)
      decreases remaining
    {
      var k :| k in remaining;
      out := out + [BusCancel(subs[k].token)];
      assert (order + [k])[..|order|] == order;
      order := order + [k];
      remaining := remaining - {k};
    }
  }

  class ClientImpl {
    const params: Params
    const registration: Registration
    /** LSHandle*: None while the client is not registered on the bus. */
    var handle: Option<nat>
    /** responses_: pending one-shot calls, keyed by the identity of their record. */
    var responses: map<nat, Response>
    /** subscriptions_: open subscriptions, keyed by the unsigned token handed to the caller. */
    var subscriptions: map<nat, Subscription>
    /** Source of fresh record identities (the addresses of new Response records). */
    var nextRecord: nat
    var events: seq<Event>

    ghost predicate Valid()
      reads this
    {
      && (forall k :: k in responses ==> k < nextRecord)
      && (handle.None? ==> responses == map[] && subscriptions == map[])
      && (forall t :: t in subscriptions ==> t < UnsignedRange)
    }

    predicate IsInitialized()
      reads this
    {
      handle.Some?
    }

    /**
     * Registers with LSRegisterPubPriv when there is no application id, else
     * as an application service; the handle is kept only if both the
     * registration and the attach to the main context succeed.
     */
    constructor (p: Params, registered: bool, busHandle: nat, attached: bool)
      ensures Valid()
      ensures params == p
      ensures registration ==
              (if p.appid == "" then RegisterPubPriv(p.name, p.bus) else RegisterApplicationService(p.name, p.appid))
      ensures IsInitialized() <==> registered && attached
      ensures IsInitialized() ==> handle == Some(busHandle)
      ensures responses == map[] && subscriptions == map[] && events == []
    {
      params := p;
      registration :=
        if p.appid == "" then RegisterPubPriv(p.name, p.bus) else RegisterApplicationService(p.name, p.appid);
      handle := if registered && attached then Some(busHandle) else None;
      responses := map[];
      subscriptions := map[];
      nextRecord := 0;
      events := [];
    }

    /**
     * One-shot call.  Fails without a handle or when LSCallOneReply fails,
     * recording nothing; otherwise records exactly one new pending call.
     */
    method Call(uri: string, param: string, callback: Callback, onCancelValue: string,
                busOk: bool, busToken: nat)
      returns (ok: bool, ghost key: nat)
      requires Valid()
      modifies this
      ensures Valid()
      ensures ok <==> old(handle).Some? && busOk
      ensures ok ==> key !in old(responses) &&
                     responses == old(responses)[key := Response(callback, busToken, uri, param, onCancelValue)]
      ensures !ok ==> responses == old(responses)
      ensures handle == old(handle) && subscriptions == old(subscriptions) && events == old(events)
    {
      var id := nextRecord;
      key := id;
      if handle.None? {
        return false, key;
      }
      if !busOk {
        return false, key;
      }
      responses := responses[id := Response(callback, busToken, uri, param, onCancelValue)];
      nextRecord := nextRecord + 1;
      ok := true;
    }

    /** Call with the header's default arguments: a do-nothing callback and an empty on-cancel value. */
    method CallWithDefaults(uri: string, param: string, busOk: bool, busToken: nat)
      returns (ok: bool, ghost key: nat)
      requires Valid()
      modifies this
      ensures Valid()
      ensures ok <==> old(handle).Some? && busOk
      ensures ok ==> key !in old(responses) &&
                     responses == old(responses)[key := Response(DoNothing, busToken, uri, param, "")]
      ensures !ok ==> responses == old(responses)
      ensures handle == old(handle) && subscriptions == old(subscriptions) && events == old(events)
    {
      ok, key := Call(uri, param, DoNothing, "", busOk, busToken);
    }

    /**
     * Subscription.  On success the subscription is stored under the
     * unsigned token, and that token is written back only when the caller
     * passed a place for it (`wantToken`, a non-null pointer).
     */
    method Subscribe(uri: string, param: string, callback: Callback, wantToken: bool,
                     busOk: bool, busToken: nat)
      returns (ok: bool, written: Option<nat>)
      requires Valid()
      modifies this
      ensures Valid()
      ensures ok <==> old(handle).Some? && busOk
      ensures ok ==> subscriptions ==
                     old(subscriptions)[UnsignedToken(busToken) := Subscription(callback, busToken, uri, param)]
      ensures !ok ==> subscriptions == old(subscriptions)
      ensures written == if ok && wantToken then Some(UnsignedToken(busToken)) else None
      ensures handle == old(handle) && responses == old(responses) && events == old(events)
    {
      written := None;
      if handle.None? || !busOk {
        return false, written;
      }
      var key := UnsignedToken(busToken);
      subscriptions := subscriptions[key := Subscription(callback, busToken, uri, param)];
      if wantToken {
        written := Some(key);
      }
      ok := true;
    }

    /**
     * Ends one subscription.  An unknown token or a client without a handle
     * changes nothing; otherwise the entry is removed whatever the bus
     * answers to the cancel request.
     */
    method Unsubscribe(token: nat)
      requires Valid()
      modifies this
      ensures Valid()
      ensures old(handle).None? || token !in old(subscriptions) ==>
                subscriptions == old(subscriptions) && events == old(events)
      ensures old(handle).Some? && token in old(subscriptions) ==>
                subscriptions == old(subscriptions) - {token} &&
                events == old(events) + [BusCancel(old(subscriptions)[token].token)]
      ensures handle == old(handle) && responses == old(responses) && nextRecord == old(nextRecord)
    {
      if handle.None? {
        return;
      }
      if token !in subscriptions {
        return;
      }
      events := events + [BusCancel(subscriptions[token].token)];
      subscriptions := subscriptions - {token};
    }

    /**
     * Cancels every pending call on the bus and runs its callback with the
     * record's own on-cancel value, then forgets all of them.  `order` is
     * the (unspecified) iteration order of the map.
     */
    method CancelWaitingCalls() returns (ghost order: seq<nat>)
      requires Valid()
      modifies this
      ensures Valid()
      ensures responses == map[]
      ensures IsOrderOf(order, old(responses).Keys)
      ensures events == old(events) + CancelTrace(old(responses), order)
      ensures handle == old(handle) && subscriptions == old(subscriptions) && nextRecord == old(nextRecord)
    {
      order := [];
      if handle.None? {
        return;
      }
      var out;
      out, order := CancelWalk(responses);
      events := events + out;
      responses := map[];
    }

    /** Cancels every subscription on the bus and forgets all of them. */
    method CancelAllSubscriptions() returns (ghost order: seq<nat>)
      requires Valid()
      modifies this
      ensures Valid()
      ensures subscriptions == map[]
      ensures IsOrderOf(order, old(subscriptions).Keys)
      ensures events == old(events) + UnsubscribeTrace(old(subscriptions), order)
      ensures handle == old(handle) && responses == old(responses) && nextRecord == old(nextRecord)
    {
      order := [];
      if handle.None? {
        return;
      }
      var out;
      out, order := UnsubscribeWalk(subscriptions);
      events := events + out;
      subscriptions := map[];
    }

    /**
     * The destructor: all subscriptions are cancelled first, then all
     * waiting calls, and the handle is unregistered.
     */
    method Destroy() returns (ghost subOrder: seq<nat>, ghost callOrder: seq<nat>)
      requires Valid()
      modifies this
      ensures Valid()
      ensures responses == map[] && subscriptions == map[] && handle.None?
      ensures IsOrderOf(subOrder, old(subscriptions).Keys) && IsOrderOf(callOrder, old(responses).Keys)
      ensures events == old(events) + UnsubscribeTrace(old(subscriptions), subOrder)
                                    + CancelTrace(old(responses), callOrder)
    {
      subOrder := CancelAllSubscriptions();
      callOrder := CancelWaitingCalls();
      handle := None;
    }

    /**
     * Reply to a one-shot call.  A record still pending has its callback run
     * once with the payload and is removed, and no other record is touched;
     * a record no longer pending is ignored.
     */
    method HandleResponse(key: nat, payload: string)
      requires Valid()
      modifies this
      ensures Valid()
      ensures key in old(responses) ==>
                responses == old(responses) - {key} &&
                events == old(events) + [Delivered(old(responses)[key].callback, payload)]
      ensures key !in old(responses) ==> responses == old(responses) && events == old(events)
      ensures handle == old(handle) && subscriptions == old(subscriptions) && nextRecord == old(nextRecord)
    {
      if key in responses {
        events := events + [Delivered(responses[key].callback, payload)];
        responses := responses - {key};
      }
    }

    /** Reply to a subscription: the callback runs, and the subscription stays open for further replies. */
    method HandleSubscribe(key: nat, payload: string)
      requires Valid()
      modifies this`events
      ensures Valid()
      ensures key in subscriptions ==> events == old(events) + [Delivered(subscriptions[key].callback, payload)]
      ensures key !in subscriptions ==> events == old(events)
    {
      if key in subscriptions {
        events := events + [Delivered(subscriptions[key].callback, payload)];
      }
    }
  }

  /** A subscription reply may fire any number of times: two replies deliver twice and keep the entry. */
  method SubscriptionRepeats(c: ClientImpl, key: nat, first: string, second: string)
    requires c.Valid() && key in c.subscriptions
    modifies c`events
    ensures c.subscriptions == old(c.subscriptions)
    ensures c.events == old(c.events) + [Delivered(c.subscriptions[key].callback, first),
                                         Delivered(c.subscriptions[key].callback, second)]
  {
    c.HandleSubscribe(key, first);
    c.HandleSubscribe(key, second);
  }
}
