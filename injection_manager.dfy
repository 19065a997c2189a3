/**
 * app_runtime::WebAppInjectionManager: the browser side of web API
 * injections.  It loads an injection into a render view only if the build
 * allows it and it is not loaded yet, and it can reload or clear them all.
 *
 * A render view host is its routing id, or None for a null host; the
 * messages sent to it are recorded in order.
 */
module InjectionManager {
  import opened Wrappers
  import opened Sequences

  datatype Message =
    | LoadExtension(routingId: nat, name: string)
    | ClearExtensions(routingId: nat)

  /** Which optional web APIs the build enables. */
  datatype BuildFlags = BuildFlags(webos: bool, sample: bool, browserControl: bool, memoryManager: bool)

  /** The injection names the build knows; their spelling lives in the injections' own headers. */
  datatype InjectionNames = InjectionNames(
    webosSystem: string, webosSystemObsolete: string, sample: string, browserControl: string, memoryManager: string)

  /** The `allowed_injections` set the build produces. */
  function AllowedInjections(flags: BuildFlags, names: InjectionNames): set<string>
  {
    (if flags.webos then {names.webosSystem, names.webosSystemObsolete} else {}) +
    (if flags.sample then {names.sample} else {}) +
    (if flags.browserControl then {names.browserControl} else {}) +
    (if flags.memoryManager then {names.memoryManager} else {})
  }

  /** One load message per name, in the given order. */
  function LoadMessages(routingId: nat, names: seq<string>): seq<Message>
  {
    if names == [] then []
    else LoadMessages(routingId, names[..|names| - 1]) + [LoadExtension(routingId, names[|names| - 1])]
  }

  lemma {:induction false} LoadMessagesAt(routingId: nat, names: seq<string>)
    ensures |LoadMessages(routingId, names)| == |names|
    ensures forall i :: 0 <= i < |names| ==> LoadMessages(routingId, names)[i] == LoadExtension(routingId, names[i])
    decreases |names|
  {
    if names != [] {
      LoadMessagesAt(routingId, names[..|names| - 1]);
    }
  }

  class WebAppInjectionManager {
    const allowed: set<string>
    /** `loaded_injections_` */
    var loaded: set<string>
    var sent: seq<Message>

    ghost predicate Valid()
      reads this
    {
      loaded <= allowed
    }

    constructor (flags: BuildFlags, names: InjectionNames)
      ensures Valid()
      ensures allowed == AllowedInjections(flags, names) && loaded == {} && sent == []
    {
      allowed := AllowedInjections(flags, names);
      loaded := {};
      sent := [];
    }

    /**
     * RequestLoadExtension: a name that is allowed and not yet loaded is
     * recorded and exactly one load message goes to the host; otherwise, or
     * without a host, nothing changes.
     */
    method RequestLoadExtension(host: Option<nat>, name: string)
      requires Valid()
      modifies this
      ensures Valid()
      ensures host.Some? && name in allowed && name !in old(loaded) ==>
                loaded == old(loaded) + {name} && sent == old(sent) + [LoadExtension(host.value, name)]
      ensures !(host.Some? && name in allowed && name !in old(loaded)) ==>
                loaded == old(loaded) && sent == old(sent)
    {
      if host.Some? && name in allowed && name !in loaded {
        loaded := loaded + {name};
        sent := sent + [LoadExtension(host.value, name)];
      }
    }

    /**
     * RequestReloadExtensions: one load message per loaded name, in the
     * set's iteration order; the loaded set stays as it is.
     */
    method RequestReloadExtensions(host: Option<nat>) returns (ghost order: seq<string>)
      requires Valid()
      modifies this`sent
      ensures host.None? ==> sent == old(sent) && order == []
      ensures host.Some? ==> IsOrderOf(order, loaded) && sent == old(sent) + LoadMessages(host.value, order)
    {
      order := [];
      if host.Some? {
        var names := loaded;
        var remaining := names;
        while remaining != {}
          invariant remaining <= names
          invariant Distinct(order)
          invariant forall n :: n in order <==> n in names && n !in remaining
          invariant sent == old(sent) + LoadMessages(host.value, order)
          modifies this`sent
          decreases remaining
        {
          var name :| name in remaining;
          sent := sent + [LoadExtension(host.value, name)];
          assert (order + [name])[..|order + [name]| - 1] == order;
          order := order + [name];
          remaining := remaining - {name};
        }
      }
    }

    /** RequestClearExtensions: with a host, forgets every loaded name and sends one clear message. */
    method RequestClearExtensions(host: Option<nat>)
      requires Valid()
      modifies this
      ensures Valid()
      ensures host.Some? ==> loaded == {} && sent == old(sent) + [ClearExtensions(host.value)]
      ensures host.None? ==> loaded == old(loaded) && sent == old(sent)
    {
      if host.Some? {
        loaded := {};
        sent := sent + [ClearExtensions(host.value)];
      }
    }
  }

  /** Loading the same name twice sends one message. */
  method LoadTwice(flags: BuildFlags, names: InjectionNames, host: nat)
    requires flags.webos
  {
    var m := new WebAppInjectionManager(flags, names);
    m.RequestLoadExtension(Some(host), names.webosSystem);
    m.RequestLoadExtension(Some(host), names.webosSystem);
    assert m.sent == [LoadExtension(host, names.webosSystem)];
  }

  /** One reload message for each loaded name. */
  lemma ReloadCoversLoaded(routingId: nat, order: seq<string>, loaded: set<string>)
    requires IsOrderOf(order, loaded)
    ensures |LoadMessages(routingId, order)| == |loaded|
    ensures forall name :: name in loaded <==> LoadExtension(routingId, name) in LoadMessages(routingId, order)
  {
    LoadMessagesAt(routingId, order);
    OrderLength(order, loaded);
    forall name ensures name in loaded <==> LoadExtension(routingId, name) in LoadMessages(routingId, order) {
      if name in loaded {
        var i :| 0 <= i < |order| && order[i] == name;
        assert LoadMessages(routingId, order)[i] == LoadExtension(routingId, name);
      }
    }
  }
}
