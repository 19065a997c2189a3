/**
 * pal::webos::SystemServiceBridgeDelegateWebOS: forwards service-bridge
 * requests to the shared Luna client, remembering the tokens of the
 * subscriptions it opened so that Cancel can close them.
 *
 * luna::GetSharedClient and luna::IsSubscription live in headers outside
 * this model: the shared client (possibly null) is a constructor argument
 * and the subscription decision is an argument of Call.
 */
module ServiceBridgeDelegate {
  import opened Wrappers
  import opened LunaClient
  import opened Sequences

  /** The subscriptions left after unsubscribing `tokens` one after the other. */
  function AfterUnsubscribes(subs: map<nat, Subscription>, tokens: seq<nat>): map<nat, Subscription>
  {
    if tokens == [] then subs
    else AfterUnsubscribes(subs, tokens[..|tokens| - 1]) - {tokens[|tokens| - 1]}
  }

  /** The bus cancels issued while unsubscribing `tokens` one after the other. */
  function UnsubscribeEvents(subs: map<nat, Subscription>, tokens: seq<nat>): seq<Event>
  {
    if tokens == [] then []
    else
      var before := AfterUnsubscribes(subs, tokens[..|tokens| - 1]);
      var t := tokens[|tokens| - 1];
      UnsubscribeEvents(subs, tokens[..|tokens| - 1]) + (if t in before then [BusCancel(before[t].token)] else [])
  }

  /** Unsubscribing a list of tokens removes exactly the subscriptions those tokens name. */
  lemma {:induction false} AfterUnsubscribesRemovesExactly(subs: map<nat, Subscription>, tokens: seq<nat>)
    ensures AfterUnsubscribes(subs, tokens) == subs - (set t | t in tokens)
    decreases |tokens|
  {
    if tokens != [] {
      var init := tokens[..|tokens| - 1];
      AfterUnsubscribesRemovesExactly(subs, init);
      assert (set t | t in tokens) == (set t | t in init) + {tokens[|tokens| - 1]} by {
        forall t ensures t in tokens <==> t in init || t == tokens[|tokens| - 1] {
          if t in tokens && t != tokens[|tokens| - 1] {
            var i :| 0 <= i < |tokens| && tokens[i] == t;
            assert init[i] == t;
          }
        }
      }
    }
  }

  class SystemServiceBridgeDelegate {
    /** The parameters the shared client was requested with: the private bus, the name, the appid. */
    const requested: Params
    const client: ClientImpl?
    /** The callback this delegate hands to the client: its own OnResponse. */
    const onResponse: Callback
    /** subscription_tokens_ */
    var tokens: seq<nat>
    /** Every payload passed on to the single stored callback_, in order. */
    var forwarded: seq<string>

    ghost predicate Valid()
      reads this, client
    {
      client != null ==> client.Valid()
    }

    constructor (name: string, appid: string, sharedClient: ClientImpl?, handler: nat)
      requires sharedClient != null ==> sharedClient.Valid()
      ensures Valid()
      ensures requested == Params(Private, name, appid)
      ensures client == sharedClient && onResponse == Handler(handler)
      ensures tokens == [] && forwarded == []
    {
      requested := Params(Private, name, appid);
      client := sharedClient;
      onResponse := Handler(handler);
      tokens := [];
      forwarded := [];
    }

    /**
     * A subscription payload goes to Subscribe and its token is kept only if
     * Subscribe succeeded; any other payload becomes one one-shot call whose
     * on-cancel value is "{}".  Without a client nothing happens.
     */
    method Call(uri: string, payload: string, isSubscription: bool, busOk: bool, busToken: nat)
      requires Valid()
      modifies this, client
      ensures Valid()
      ensures forwarded == old(forwarded)
      ensures client == null ==> tokens == old(tokens)
      ensures client != null && isSubscription ==>
                var ok := old(client.handle).Some? && busOk;
                && tokens == (if ok then old(tokens) + [UnsignedToken(busToken)] else old(tokens))
                && client.subscriptions ==
                   (if ok then old(client.subscriptions)[UnsignedToken(busToken) := Subscription(onResponse, busToken, uri, payload)]
                    else old(client.subscriptions))
                && client.responses == old(client.responses)
      ensures client != null && !isSubscription ==>
                && tokens == old(tokens)
                && client.subscriptions == old(client.subscriptions)
                && (old(client.handle).Some? && busOk ==>
                      exists key: nat :: key !in old(client.responses) &&
                        client.responses == old(client.responses)[key := Response(onResponse, busToken, uri, payload, "{}")])
                && (old(client.handle).None? || !busOk ==> client.responses == old(client.responses))
      ensures client != null ==> client.handle == old(client.handle) && client.events == old(client.events)
    {
      if client == null {
        return;
      }
      if isSubscription {
        var subscribed, written := client.Subscribe(uri, payload, onResponse, true, busOk, busToken);
        if subscribed {
          tokens := tokens + [written.value];
        }
      } else {
        var ok, key := client.Call(uri, payload, onResponse, "{}", busOk, busToken);
      }
    }

    /**
     * Unsubscribes every recorded token, in order, then cancels the waiting
     * calls.  The token list itself is left as it was.
     */
    method Cancel() returns (ghost callOrder: seq<nat>)
      requires Valid()
      modifies client
      ensures Valid()
      ensures client != null ==> IsOrderOf(callOrder, old(client.responses).Keys)
      ensures client != null && old(client.handle).Some? ==>
                && client.subscriptions == old(client.subscriptions) - (set t | t in tokens)
                && client.events == old(client.events) + UnsubscribeEvents(old(client.subscriptions), tokens)
                                    + CancelTrace(old(client.responses), callOrder)
      ensures client != null && old(client.handle).None? ==>
                client.subscriptions == old(client.subscriptions) && client.events == old(client.events)
      ensures client != null ==> client.responses == map[] && client.handle == old(client.handle)
    {
      callOrder := [];
      if client != null {
        ghost var subs0 := client.subscriptions;
        var i := 0;
        while i < |tokens|
          invariant 0 <= i <= |tokens|
          invariant client.Valid()
          invariant client.handle == old(client.handle) && client.responses == old(client.responses)
          invariant client.handle.Some? ==>
                      client.subscriptions == AfterUnsubscribes(subs0, tokens[..i]) &&
                      client.events == old(client.events) + UnsubscribeEvents(subs0, tokens[..i])
          invariant client.handle.None? ==>
                      client.subscriptions == subs0 && client.events == old(client.events)
        {
          assert tokens[..i + 1][..i] == tokens[..i];
          client.Unsubscribe(tokens[i]);
          i := i + 1;
        }
        assert tokens[..|tokens|] == tokens;
        AfterUnsubscribesRemovesExactly(subs0, tokens);
        callOrder := client.CancelWaitingCalls();
      }
    }

    /** OnResponse: every reply, one-shot or subscription, reaches callback_ unchanged. */
    method OnResponse(json: string)
      modifies this`forwarded
      ensures forwarded == old(forwarded) + [json]
    {
      forwarded := forwarded + [json];
    }

    /** The destructor performs Cancel. */
    method Destroy() returns (ghost callOrder: seq<nat>)
      requires Valid()
      modifies client
      ensures Valid()
      ensures client != null ==> IsOrderOf(callOrder, old(client.responses).Keys)
      ensures client != null && old(client.handle).Some? ==>
                && client.subscriptions == old(client.subscriptions) - (set t | t in tokens)
                && client.events == old(client.events) + UnsubscribeEvents(old(client.subscriptions), tokens)
                                    + CancelTrace(old(client.responses), callOrder)
      ensures client != null && old(client.handle).None? ==>
                client.subscriptions == old(client.subscriptions) && client.events == old(client.events)
      ensures client != null ==> client.responses == map[] && client.handle == old(client.handle)
    {
      callOrder := Cancel();
    }
  }
}
