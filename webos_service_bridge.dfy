/**
 * The service bridge of the webOSServiceBridge injection (the object
 * scripts create with `new webOSServiceBridge()`) and its close handshake.
 *
 * Unlike the webOSSystem bridge, this one joins the waiting set only while
 * the application is closing, and runs the JS handler only for successful
 * responses.  The shared statics are the fields of one BridgeRegistry.
 */
module WebOSServiceBridge {
  import opened Wrappers
  import opened BridgeCommon

  datatype ResponseStatus = Success | Failure

  /** The message thrown when the constructor is called without `new`. */
  const ConstructorOnlyMessage: string := "webOSServiceBridge function must be invoked as a constructor only"

  datatype Event =
    | Connected(bridge: ServiceBridge, name: string, appId: string)
    | Forwarded(bridge: ServiceBridge, uri: string, payload: string)
    | CancelForwarded(bridge: ServiceBridge)
    | HandlerRan(bridge: ServiceBridge, body: string)
    | CloseNotified
    | Thrown(message: string)

  /** The static `waiting_responses_` and `is_closing_`, plus the log of effects. */
  class BridgeRegistry {
    var waiting: set<ServiceBridge>
    var isClosing: bool
    var events: seq<Event>

    constructor ()
      ensures waiting == {} && !isClosing && events == []
    {
      waiting := {};
      isClosing := false;
      events := [];
    }

    method SetClosing(closing: bool)
      modifies this`isClosing
      ensures isClosing == closing
    {
      isClosing := closing;
    }
  }

  class ServiceBridge {
    const identifier: string
    const registry: BridgeRegistry
    /** Whether the wrapper object (and so its creation context) can be found. */
    const hasWrapper: bool

    constructor (appIdentifier: string, shared: BridgeRegistry, pid: nat, hasConnector: bool, wrapperFound: bool)
      modifies shared`events
      ensures identifier == appIdentifier && registry == shared && hasWrapper == wrapperFound
      ensures shared.events == old(shared.events) +
              (if appIdentifier != "" && hasConnector
               then [Connected(this, ServiceNameWithPid(appIdentifier, pid), appIdentifier)] else [])
    {
      identifier := appIdentifier;
      registry := shared;
      hasWrapper := wrapperFound;
      new;
      if appIdentifier != "" && hasConnector {
        shared.events := shared.events + [Connected(this, ServiceNameWithPid(appIdentifier, pid), appIdentifier)];
      }
    }

    /**
     * DoCall: without an identifier nothing happens; otherwise the call is
     * forwarded and, only while closing, this bridge then joins the waiting set.
     */
    method DoCall(uri: string, payload: string)
      modifies registry`waiting, registry`events
      ensures identifier == "" ==> registry.waiting == old(registry.waiting) && registry.events == old(registry.events)
      ensures identifier != "" ==>
                registry.waiting == (if registry.isClosing then old(registry.waiting) + {this} else old(registry.waiting)) &&
                registry.events == old(registry.events) + [Forwarded(this, uri, payload)]
    {
      if identifier == "" {
        return;
      }
      registry.events := registry.events + [Forwarded(this, uri, payload)];
      if registry.isClosing {
        registry.waiting := registry.waiting + {this};
      }
    }

    /** Call: forwards the two string arguments, or two empty strings. */
    method Call(args: seq<Arg>)
      modifies registry`waiting, registry`events
      ensures identifier == "" ==> registry.waiting == old(registry.waiting) && registry.events == old(registry.events)
      ensures identifier != "" ==>
                registry.waiting == (if registry.isClosing then old(registry.waiting) + {this} else old(registry.waiting)) &&
                registry.events == old(registry.events) +
                  [Forwarded(this, CallArguments(args).0, CallArguments(args).1)]
    {
      var (uri, payload) := CallArguments(args);
      DoCall(uri, payload);
    }

    /** Cancel: without an identifier nothing happens; otherwise the cancel is forwarded and this bridge stops waiting. */
    method Cancel()
      modifies registry`waiting, registry`events
      ensures identifier == "" ==> registry.waiting == old(registry.waiting) && registry.events == old(registry.events)
      ensures identifier != "" ==>
                registry.waiting == old(registry.waiting) - {this} &&
                registry.events == old(registry.events) + [CancelForwarded(this)]
    {
      if identifier == "" {
        return;
      }
      registry.events := registry.events + [CancelForwarded(this)];
      registry.waiting := registry.waiting - {this};
    }

    /** CallJSHandler: runs `onservicecallback` with the body when the wrapper holds a function under that name. */
    method CallJSHandler(body: string, hasHandler: bool, handlerIsFunction: bool)
      modifies registry`events
      ensures registry.events == old(registry.events) +
              (if hasWrapper && hasHandler && handlerIsFunction then [HandlerRan(this, body)] else [])
    {
      if !hasWrapper || !hasHandler || !handlerIsFunction {
        return;
      }
      registry.events := registry.events + [HandlerRan(this, body)];
    }

    /** CloseNotify: runs webOSSystem.onCloseNotify in the wrapper's context; no wrapper, no notification. */
    method CloseNotify()
      modifies registry`events
      ensures registry.events == old(registry.events) + (if hasWrapper then [CloseNotified] else [])
    {
      if !hasWrapper {
        return;
      }
      registry.events := registry.events + [CloseNotified];
    }

    /**
     * Response: the JS handler runs only for a successful response; then,
     * only while closing, this bridge stops waiting, whatever the status,
     * and a close notification follows iff nobody is left waiting.
     */
    method Response(status: ResponseStatus, body: string, hasHandler: bool, handlerIsFunction: bool)
      modifies registry`waiting, registry`events
      ensures registry.isClosing ==> registry.waiting == old(registry.waiting) - {this}
      ensures !registry.isClosing ==> registry.waiting == old(registry.waiting)
      ensures var ran := status == Success && hasWrapper && hasHandler && handlerIsFunction;
              var notify := registry.isClosing && registry.waiting == {} && hasWrapper;
              registry.events == old(registry.events) +
                (if ran then [HandlerRan(this, body)] else []) +
                (if notify then [CloseNotified] else [])
    {
      if status == Success {
        CallJSHandler(body, hasHandler, handlerIsFunction);
      }
      if !registry.isClosing {
        return;
      }
      registry.waiting := registry.waiting - {this};
      if registry.waiting == {} {
        CloseNotify();
      }
    }

    /** The destructor performs Cancel. */
    method Destroy()
      modifies registry`waiting, registry`events
      ensures identifier == "" ==> registry.waiting == old(registry.waiting) && registry.events == old(registry.events)
      ensures identifier != "" ==>
                registry.waiting == old(registry.waiting) - {this} &&
                registry.events == old(registry.events) + [CancelForwarded(this)]
    {
      Cancel();
    }
  }

  /**
   * WebOSServiceBridgeConstructorCallback: called without `new` it throws
   * and creates no bridge; as a construct call it creates one.
   */
  method ConstructorCallback(isConstructCall: bool, appIdentifier: string, shared: BridgeRegistry,
                             pid: nat, hasConnector: bool)
    returns (created: Option<ServiceBridge>)
    modifies shared`events
    ensures !isConstructCall ==> created == None && shared.events == old(shared.events) + [Thrown(ConstructorOnlyMessage)]
    ensures isConstructCall ==> created.Some? && fresh(created.value) &&
                                created.value.identifier == appIdentifier && created.value.registry == shared
  {
    if !isConstructCall {
      shared.events := shared.events + [Thrown(ConstructorOnlyMessage)];
      return None;
    }
    var bridge := new ServiceBridge(appIdentifier, shared, pid, hasConnector, true);
    created := Some(bridge);
  }

  /**
   * The close handshake of this variant: a call made before closing does
   * not make the bridge wait, so a failed response while closing still
   * notifies, without running the handler.
   */
  method FailedResponseStillNotifies(pid: nat)
  {
    var registry := new BridgeRegistry();
    var a := new ServiceBridge("com.example.app", registry, pid, true, true);
    a.DoCall("luna://com.example.service/one", "{}");
    assert registry.waiting == {};
    registry.SetClosing(true);
    ghost var before := registry.events;
    a.Response(Failure, "{\"returnValue\":false}", true, true);
    assert registry.events == before + [CloseNotified];
  }
}
