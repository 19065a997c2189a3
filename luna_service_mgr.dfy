/**
 * LunaServiceManager: one registration on the Luna bus per identifier,
 * shared between the injections and shell components that need it, plus
 * the listener tokens of the requests they make through it.
 *
 * Bus registration, attach, priority, calls and cancels are oracles; random
 * characters come from a stream of draws `draws(0), draws(1), ...`.
 */
module LunaServiceMgr {
  import opened Wrappers
  import opened Json

  /** Size of the alphabet random_char picks from: digits, then upper-case, then lower-case letters. */
  const AlphabetSize: nat := 62

  predicate IsAlphanumeric(c: char) {
    ('0' <= c <= '9') || ('A' <= c <= 'Z') || ('a' <= c <= 'z')
  }

  /**
   * random_char: the character at position `draw % 62` of
   * "0-9A-Za-z", with `draw` the value the uniform distribution produced.
   */
  function RandomChar(draw: nat): (c: char)
    ensures IsAlphanumeric(c)
  {
    var k := draw % AlphabetSize;
    if k < 10 then ('0' as int + k) as char
    else if k < 36 then ('A' as int + (k - 10)) as char
    else ('a' as int + (k - 36)) as char
  }

  /** The template that unique_id_with_suffix fills in. */
  function SuffixTemplate(id: string): string {
    id + "-%%%%%%%%"
  }

  /** `name` is the template of `id` with every '%' replaced by an alphanumeric character. */
  ghost predicate IsSuffixedName(name: string, id: string) {
    var t := SuffixTemplate(id);
    && |name| == |t|
    && (forall i :: 0 <= i < |t| && t[i] == '%' ==> IsAlphanumeric(name[i]))
    && (forall i :: 0 <= i < |t| && t[i] != '%' ==> name[i] == t[i])
  }

  /** A suffixed name is nine characters longer than the identifier, with '-' right after it. */
  lemma SuffixedNameShape(name: string, id: string)
    requires IsSuffixedName(name, id)
    ensures |name| == |id| + 9 && name[|id|] == '-'
    ensures forall i :: |id| < i < |name| ==> IsAlphanumeric(name[i])
  {
    var t := SuffixTemplate(id);
    assert t[|id|] == '-';
    forall i | |id| < i < |name| ensures IsAlphanumeric(name[i]) {
      assert t[i] == '%';
    }
  }

  /**
   * unique_id_with_suffix: every '%' of the template, including any that
   * `id` itself contains, becomes a random alphanumeric character; all
   * other characters are kept.
   */
  method UniqueIdWithSuffix(id: string, draws: nat -> nat) returns (r: string)
    ensures IsSuffixedName(r, id)
  {
    var t := SuffixTemplate(id);
    r := t;
    var used := 0;
    for i := 0 to |r|
      invariant |r| == |t|
      invariant forall j :: 0 <= j < i && t[j] == '%' ==> IsAlphanumeric(r[j])
      invariant forall j :: 0 <= j < i && t[j] != '%' ==> r[j] == t[j]
      invariant forall j :: i <= j < |t| ==> r[j] == t[j]
    {
      if r[i] == '%' {
        r := r[i := RandomChar(draws(used))];
        used := used + 1;
      }
    }
  }

  const BrowserPrefix: string := "com.webos.app.enactbrowser"
  const PhonePrefix: string := "com.palm.app.phone"

  datatype Registration =
    | Register(name: string)                                     // LSRegister under the plain identifier
    | RegisterApplicationService(name: string, appId: string)    // LSRegisterApplicationService

  datatype Priority = PriorityHigh | PriorityDefault

  datatype RequestKind = Subscribing | OneReply

  datatype BusRequest =
    | Request(kind: RequestKind, uri: string, payload: string, appId: string)
    | CancelRequest(token: nat)
    | Unregister

  /**
   * The subscription decision of CallFromApplication: the payload must be a
   * dictionary whose boolean "subscribe" is true, or failing that whose
   * boolean "watch" is true; members of any other type are ignored.
   */
  function IsSubscriptionPayload(json: Option<Value>): (r: bool)
    ensures r <==>
      && json.Some? && json.value.Dict?
      && (("subscribe" in json.value.entries && json.value.entries["subscribe"] == Bool(true)) ||
          ("watch" in json.value.entries && json.value.entries["watch"] == Bool(true)))
  {
    if json.None? || !json.value.Dict? then false
    else
      var subscribe := FindBool(json.value, "subscribe");
      if subscribe.Some? && subscribe.value then true
      else
        var watch := FindBool(json.value, "watch");
        watch.Some? && watch.value
  }

  /** A request whose "subscribe" is a string or a number is not a subscription unless "watch" says so. */
  lemma NonBooleanSubscribeIgnored(entries: map<string, Value>)
    requires "subscribe" in entries && !entries["subscribe"].Bool?
    ensures IsSubscriptionPayload(Some(Dict(entries))) <==>
            "watch" in entries && entries["watch"] == Bool(true)
  {
  }

  /** LunaServiceManagerListener: the token of the listener's current request. */
  class Listener {
    var token: nat

    /** A new listener holds LSMESSAGE_TOKEN_INVALID, which is 0. */
    constructor ()
      ensures token == 0
    {
      token := 0;
    }

    /** SetListenerToken; GetListenerToken reads the field back. */
    method SetToken(t: nat)
      modifies this
      ensures token == t
    {
      token := t;
    }
  }

  class LunaServiceManager {
    const identifier: string
    /** sh_ != NULL: the registration call succeeded. */
    var registered: bool
    var initialized: bool
    /** The registration request Init made, if it got that far. */
    var registration: Option<Registration>
    /** The priority request Init made, if it got that far. */
    var priority: Option<Priority>
    var busRequests: seq<BusRequest>
    /** Number of std::shared_ptr owners; the cache's weak pointer is live while it is positive. */
    var refs: nat

    /**
     * The (private) constructor runs Init; GetManager is the only caller.
     */
    constructor (id: string, draws: nat -> nat, registerOk: bool, attachOk: bool, priorityOk: bool)
      ensures identifier == id && refs == 0 && busRequests == []
      ensures initialized <==> registerOk && attachOk && priorityOk
      ensures registration.Some?
      ensures BrowserPrefix <= id ==> registration == Some(Register(id))
      ensures !(BrowserPrefix <= id) ==>
                registration.value.RegisterApplicationService? && registration.value.appId == id &&
                IsSuffixedName(registration.value.name, id)
      ensures priority.Some? <==> registerOk && attachOk
      ensures priority.Some? ==> (priority.value == PriorityHigh <==> PhonePrefix <= id)
    {
      identifier := id;
      registered := false;
      initialized := false;
      registration := None;
      priority := None;
      busRequests := [];
      refs := 0;
      new;
      Init(draws, registerOk, attachOk, priorityOk);
    }

    /**
     * Registers on the bus: under the plain identifier for the browser,
     * else as an application service under the suffixed name; then attaches
     * and sets the priority, high only for the phone application.  Becomes
     * initialized only if all three succeed; does nothing once initialized.
     */
    method Init(draws: nat -> nat, registerOk: bool, attachOk: bool, priorityOk: bool)
      modifies this
      ensures old(initialized) ==>
                initialized && registered == old(registered) &&
                registration == old(registration) && priority == old(priority)
      ensures !old(initialized) ==>
                && (initialized <==> registerOk && attachOk && priorityOk)
                && registration.Some?
                && (BrowserPrefix <= identifier ==> registration == Some(Register(identifier)))
                && (!(BrowserPrefix <= identifier) ==>
                      registration.value.RegisterApplicationService? && registration.value.appId == identifier &&
                      IsSuffixedName(registration.value.name, identifier))
                && (registered <==> old(registered) || registerOk)
                && (registerOk && attachOk ==>
                      priority == Some(if PhonePrefix <= identifier then PriorityHigh else PriorityDefault))
                && (!(registerOk && attachOk) ==> priority == old(priority))
      ensures busRequests == old(busRequests) && refs == old(refs)
    {
      if initialized {
        return;
      }
      var isBrowser := BrowserPrefix <= identifier;
      var isPhone := PhonePrefix <= identifier;
      var suffixed := UniqueIdWithSuffix(identifier, draws);
      registration := Some(if isBrowser then Register(identifier) else RegisterApplicationService(suffixed, identifier));
      if !registerOk {
        return;
      }
      registered := true;
      if !attachOk {
        return;
      }
      priority := Some(if isPhone then PriorityHigh else PriorityDefault);
      if !priorityOk {
        return;
      }
      initialized := true;
    }

    /**
     * Sends `payload` as a subscription or a one-shot request, as the
     * payload says.  On success the bus token is stored in the listener and
     * returned; on failure 0 is returned and the listener is untouched.
     */
    method CallFromApplication(uri: string, payload: string, parsed: Option<Value>, appId: string,
                               listener: Listener, busOk: bool, busToken: nat)
      returns (token: nat)
      modifies this`busRequests, listener
      ensures busRequests == old(busRequests) +
              [Request(if IsSubscriptionPayload(parsed) then Subscribing else OneReply, uri, payload, appId)]
      ensures token == (if busOk then busToken else 0)
      ensures listener.token == (if busOk then busToken else old(listener.token))
    {
      var subscription := IsSubscriptionPayload(parsed);
      busRequests := busRequests + [Request(if subscription then Subscribing else OneReply, uri, payload, appId)];
      if busOk {
        token := busToken;
        listener.SetToken(token);
      } else {
        token := 0;
      }
    }

    /** Call: CallFromApplication with an empty application id. */
    method Call(uri: string, payload: string, parsed: Option<Value>, listener: Listener, busOk: bool, busToken: nat)
      returns (token: nat)
      modifies this`busRequests, listener
      ensures busRequests == old(busRequests) +
              [Request(if IsSubscriptionPayload(parsed) then Subscribing else OneReply, uri, payload, "")]
      ensures token == (if busOk then busToken else 0)
      ensures listener.token == (if busOk then busToken else old(listener.token))
    {
      token := CallFromApplication(uri, payload, parsed, "", listener, busOk, busToken);
    }

    /**
     * Cancels the listener's request.  A null listener or a zero token is
     * ignored; otherwise the token is reset to 0 whatever the bus answers.
     */
    method Cancel(listener: Listener?)
      modifies this`busRequests, listener
      ensures listener == null || old(listener.token) == 0 ==>
                busRequests == old(busRequests) && (listener != null ==> listener.token == old(listener.token))
      ensures listener != null && old(listener.token) != 0 ==>
                busRequests == old(busRequests) + [CancelRequest(old(listener.token))] && listener.token == 0
    {
      if listener == null || listener.token == 0 {
        return;
      }
      busRequests := busRequests + [CancelRequest(listener.token)];
      listener.SetToken(0);
    }

    /**
     * One shared owner lets go.  When the last one does, the destructor runs:
     * a registered handle is unregistered, whatever the bus answers, and the
     * cache's weak pointer has expired.
     */
    method Release()
      requires refs > 0
      modifies this`refs, this`registered, this`busRequests
      ensures refs == old(refs) - 1
      ensures refs == 0 && old(registered) ==> busRequests == old(busRequests) + [Unregister] && !registered
      ensures !(refs == 0 && old(registered)) ==> busRequests == old(busRequests) && registered == old(registered)
    {
      refs := refs - 1;
      if refs == 0 && registered {
        busRequests := busRequests + [Unregister];
        registered := false;
      }
    }
  }

  /** The static `storage_` cache: identifier to (weak) manager. */
  class ManagerStorage {
    var storage: map<string, LunaServiceManager>

    ghost predicate Valid()
      reads this, storage.Values
    {
      forall id :: id in storage ==> storage[id].identifier == id && storage[id].initialized
    }

    constructor ()
      ensures Valid() && storage == map[]
    {
      storage := map[];
    }

    /** The cache holds a manager for `id` that something still owns. */
    predicate IsLive(id: string)
      reads this, storage.Values
    {
      id in storage && storage[id].refs > 0
    }

    /**
     * GetManager: the live cached manager for the identifier, with one more
     * owner; otherwise a new manager, cached and returned only if it
     * initialized, and null if it did not.
     */
    method GetManager(id: string, draws: nat -> nat, registerOk: bool, attachOk: bool, priorityOk: bool)
      returns (m: LunaServiceManager?)
      requires Valid()
      modifies this, storage.Values
      ensures Valid()
      ensures old(IsLive(id)) ==>
                m == old(storage[id]) && m.refs == old(m.refs) + 1 && storage == old(storage)
      ensures !old(IsLive(id)) ==>
                && (m != null <==> registerOk && attachOk && priorityOk)
                && (m != null ==> fresh(m) && m.identifier == id && m.initialized && m.refs == 1 &&
                                  storage == old(storage)[id := m])
                && (m == null ==> storage == old(storage))
      ensures forall other :: other in old(storage.Values) && other != m ==> other.refs == old(other.refs)
    {
      if id in storage && storage[id].refs > 0 {
        m := storage[id];
        m.refs := m.refs + 1;
        return;
      }
      var created := new LunaServiceManager(id, draws, registerOk, attachOk, priorityOk);
      if created.initialized {
        created.refs := 1;
        storage := storage[id := created];
        m := created;
      } else {
        m := null;
      }
    }
  }

  /** Two lookups of the same identifier while the first result is still held return the same manager. */
  method SharedWhileHeld(s: ManagerStorage, id: string, draws: nat -> nat)
    requires s.Valid()
    modifies s, s.storage.Values
  {
    var first := s.GetManager(id, draws, true, true, true);
    assert first != null && first.refs > 0;
    var second := s.GetManager(id, draws, true, true, true);
    assert second == first;
  }
}
