/**
 * The service bridge of the webOSSystem injection and its close handshake.
 *
 * All bridges share a set of bridges waiting for a response and an
 * "application is closing" flag (static members in the injection); here
 * they are the fields of one BridgeRegistry that every bridge points to.
 * What the bridge does through V8 and mojo is recorded as events.
 */
module WebOSSystemBridge {
  import opened BridgeCommon

  datatype Event =
    | Connected(bridge: ServiceBridge, name: string, appId: string)
    | Forwarded(bridge: ServiceBridge, uri: string, payload: string)
    | CancelForwarded(bridge: ServiceBridge)
    | HandlerRan(bridge: ServiceBridge, body: string)
    | CloseNotified

  /** The static `waiting_responses_` and `is_closing_`, plus the log of effects. */
  class BridgeRegistry {
    var waiting: set<ServiceBridge>
    var isClosing: bool
    var events: seq<Event>

    constructor ()
      ensures waiting == {} && !isClosing && events == []
    {
      waiting := {};
      isClosing := false;
      events := [];
    }

    /** The application shell sets the public `is_closing_` flag. */
    method SetClosing(closing: bool)
      modifies this`isClosing
      ensures isClosing == closing
    {
      isClosing := closing;
    }
  }

  class ServiceBridge {
    /** The answer of webOSSystem.getIdentifier(), empty when there was none. */
    const identifier: string
    const registry: BridgeRegistry

    /**
     * With an identifier and a connector, the bridge connects under the
     * identifier suffixed with the process id; otherwise it stays unconnected.
     */
    constructor (appIdentifier: string, shared: BridgeRegistry, pid: nat, hasConnector: bool)
      modifies shared`events
      ensures identifier == appIdentifier && registry == shared
      ensures shared.events == old(shared.events) +
              (if appIdentifier != "" && hasConnector
               then [Connected(this, ServiceNameWithPid(appIdentifier, pid), appIdentifier)] else [])
    {
      identifier := appIdentifier;
      registry := shared;
      new;
      if appIdentifier != "" && hasConnector {
        shared.events := shared.events + [Connected(this, ServiceNameWithPid(appIdentifier, pid), appIdentifier)];
      }
    }

    /**
     * DoCall: without an identifier nothing happens; otherwise this bridge
     * joins the waiting set, closing or not, and then the call is forwarded.
     */
    method DoCall(uri: string, payload: string)
      modifies registry`waiting, registry`events
      ensures identifier == "" ==> registry.waiting == old(registry.waiting) && registry.events == old(registry.events)
      ensures identifier != "" ==>
                registry.waiting == old(registry.waiting) + {this} &&
                registry.events == old(registry.events) + [Forwarded(this, uri, payload)]
    {
      if identifier == "" {
        return;
      }
      registry.waiting := registry.waiting + {this};
      registry.events := registry.events + [Forwarded(this, uri, payload)];
    }

    /** Call: forwards the two string arguments, or two empty strings. */
    method Call(args: seq<Arg>)
      modifies registry`waiting, registry`events
      ensures identifier == "" ==> registry.waiting == old(registry.waiting) && registry.events == old(registry.events)
      ensures identifier != "" ==>
                registry.waiting == old(registry.waiting) + {this} &&
                registry.events == old(registry.events) +
                  [Forwarded(this, CallArguments(args).0, CallArguments(args).1)]
    {
      var (uri, payload) := CallArguments(args);
      DoCall(uri, payload);
    }

    /** Cancel: without an identifier nothing happens; otherwise the cancel is forwarded and this bridge stops waiting. */
    method Cancel()
      modifies registry`waiting, registry`events
      ensures identifier == "" ==> registry.waiting == old(registry.waiting) && registry.events == old(registry.events)
      ensures identifier != "" ==>
                registry.waiting == old(registry.waiting) - {this} &&
                registry.events == old(registry.events) + [CancelForwarded(this)]
    {
      if identifier == "" {
        return;
      }
      registry.events := registry.events + [CancelForwarded(this)];
      registry.waiting := registry.waiting - {this};
    }

    /** CloseNotify runs webOSSystem.onCloseNotify only while closing with nobody left waiting. */
    method CloseNotify()
      modifies registry`events
      ensures registry.events == old(registry.events) +
              (if registry.isClosing && registry.waiting == {} then [CloseNotified] else [])
    {
      if !registry.isClosing || registry.waiting != {} {
        return;
      }
      registry.events := registry.events + [CloseNotified];
    }

    /**
     * Response: while closing this bridge stops waiting, and a close
     * notification is due iff nobody is left waiting; the JS handler
     * `onservicecallback` then runs with the body if the wrapper exists and
     * holds a function under that name, and only after it has run is the
     * close notification given.  Any early return skips both.
     */
    method Response(body: string, hasWrapper: bool, hasHandler: bool, handlerIsFunction: bool)
      modifies registry`waiting, registry`events
      ensures registry.isClosing ==> registry.waiting == old(registry.waiting) - {this}
      ensures !registry.isClosing ==> registry.waiting == old(registry.waiting)
      ensures var ran := hasWrapper && hasHandler && handlerIsFunction;
              var notify := ran && registry.isClosing && registry.waiting == {};
              registry.events == old(registry.events) +
                (if ran then [HandlerRan(this, body)] else []) +
                (if notify then [CloseNotified] else [])
    {
      var shouldCallCloseNotify := false;
      if registry.isClosing {
        registry.waiting := registry.waiting - {this};
        if registry.waiting == {} {
          shouldCallCloseNotify := true;
        }
      }
      if !hasWrapper || !hasHandler || !handlerIsFunction {
        return;
      }
      registry.events := registry.events + [HandlerRan(this, body)];
      if shouldCallCloseNotify {
        CloseNotify();
      }
    }

    /** The destructor performs Cancel. */
    method Destroy()
      modifies registry`waiting, registry`events
      ensures identifier == "" ==> registry.waiting == old(registry.waiting) && registry.events == old(registry.events)
      ensures identifier != "" ==>
                registry.waiting == old(registry.waiting) - {this} &&
                registry.events == old(registry.events) + [CancelForwarded(this)]
    {
      Cancel();
    }
  }

  /**
   * The close handshake: of two bridges with calls outstanding while the
   * application closes, the first answer gives no notification and the
   * second gives exactly one, after its handler.
   */
  method CloseHandshake(pid: nat)
  {
    var registry := new BridgeRegistry();
    var a := new ServiceBridge("com.example.app", registry, pid, true);
    var b := new ServiceBridge("com.example.app", registry, pid, true);
    a.DoCall("luna://com.example.service/one", "{}");
    b.DoCall("luna://com.example.service/two", "{}");
    registry.SetClosing(true);
    ghost var before := registry.events;
    a.Response("{\"returnValue\":true}", true, true, true);
    assert registry.waiting == {b};
    assert registry.events == before + [HandlerRan(a, "{\"returnValue\":true}")];
    b.Response("{\"returnValue\":true}", true, true, true);
    assert registry.waiting == {};
    assert registry.events == before + [HandlerRan(a, "{\"returnValue\":true}"),
                                        HandlerRan(b, "{\"returnValue\":true}"), CloseNotified];
  }
}
