/**
 * webos::LanguageListener: keeps a web contents' accept-languages in step
 * with the system UI language.  It subscribes to the settings service's
 * getSystemSettings for "localeInfo" and, on each reply, takes the value at
 * settings/localeInfo/locales/UI; only a value different from the current
 * accept-languages is applied, and the renderer preferences are then
 * synced if the contents has a render view host.
 */
module LanguageListener {
  import opened Wrappers
  import opened Json
  import opened LunaServiceMgr

  const Identifier: string := "com.webos.app.neva.browser"
  const GetLanguageMethod: string := "palm://com.webos.settingsservice/getSystemSettings"
  const GetLanguageRequest: string := "{\"keys\":[\"localeInfo\"], \"subscribe\":true}"

  /** What the JSON reader makes of GetLanguageRequest. */
  function GetLanguageRequestValue(): Value {
    Dict(map["keys" := List([Str("localeInfo")]), "subscribe" := Bool(true)])
  }

  function UILanguagePath(): seq<string> {
    ["settings", "localeInfo", "locales", "UI"]
  }

  /** What one reply asks for. */
  datatype Decision =
    | Ignore                     // no contents, an unparsable body, or no value at the path
    | Abort                      // a value at the path that is not a string: GetString's CHECK fails
    | Keep                       // the value equals the current accept-languages
    | Replace(language: string)  // a new value for accept-languages

  function Decide(current: string, hasContents: bool, root: Option<Value>): (d: Decision)
    ensures d == Ignore <==> !hasContents || root.None? || FindPath(root.value, UILanguagePath()).None?
    ensures d == Abort <==>
              hasContents && root.Some? && FindPath(root.value, UILanguagePath()).Some? &&
              !FindPath(root.value, UILanguagePath()).value.Str?
    ensures d == Keep <==>
              hasContents && root.Some? && FindPath(root.value, UILanguagePath()) == Some(Str(current))
    ensures d.Replace? <==>
              hasContents && root.Some? && FindPath(root.value, UILanguagePath()).Some? &&
              FindPath(root.value, UILanguagePath()).value.Str? &&
              FindPath(root.value, UILanguagePath()).value.s != current
    ensures d.Replace? ==> FindPath(root.value, UILanguagePath()) == Some(Str(d.language))
  {
    if !hasContents || root.None? then Ignore
    else match FindPath(root.value, UILanguagePath())
      case None => Ignore
      case Some(Str(s)) => if s == current then Keep else Replace(s)
      case Some(_) => Abort
  }

  /** Once a reply has been applied, the same reply again is kept as it is. */
  lemma DecideIdempotent(current: string, root: Option<Value>)
    requires Decide(current, true, root).Replace?
    ensures Decide(Decide(current, true, root).language, true, root) == Keep
  {
  }

  /** A reply carrying the language at the expected path replaces a different current value. */
  lemma ReplyReplaces(current: string, language: string)
    requires language != current
    ensures Decide(current, true, Some(Nest(UILanguagePath(), Str(language)))) == Replace(language)
  {
    FindPathNest(UILanguagePath(), Str(language));
  }

  class LanguageListener {
    /** The LunaServiceManagerListener part of this object. */
    const listener: Listener
    /** lsm_ */
    var lsm: LunaServiceManager?
    /** The observed contents' renderer preference accept_languages. */
    var acceptLanguages: string
    /** Number of SyncRendererPrefs calls. */
    var syncs: nat

    /** Obtains the browser's manager and, if there is one, subscribes to the system settings. */
    constructor (storage: ManagerStorage, draws: nat -> nat, registerOk: bool, attachOk: bool, priorityOk: bool,
                 busOk: bool, busToken: nat, languages: string)
      requires storage.Valid()
      modifies storage, storage.storage.Values
      ensures storage.Valid()
      ensures acceptLanguages == languages && syncs == 0
      ensures lsm != null ==>
                && lsm.identifier == Identifier && lsm.initialized && lsm.refs > 0
                && |lsm.busRequests| > 0
                && lsm.busRequests[|lsm.busRequests| - 1] == Request(Subscribing, GetLanguageMethod, GetLanguageRequest, "")
                && listener.token == (if busOk then busToken else 0)
      ensures lsm == null ==> listener.token == 0
    {
      listener := new Listener();
      acceptLanguages := languages;
      syncs := 0;
      lsm := null;
      new;
      var m := storage.GetManager(Identifier, draws, registerOk, attachOk, priorityOk);
      lsm := m;
      if m != null {
        var _ := m.Call(GetLanguageMethod, GetLanguageRequest, Some(GetLanguageRequestValue()), listener, busOk, busToken);
      }
    }

    /**
     * The destructor cancels the listener's request through the manager, if
     * there is one, and then drops its shared reference to the manager; the
     * last reference unregisters a registered manager from the bus.
     */
    method Destroy()
      requires lsm != null ==> lsm.refs > 0
      modifies lsm, listener
      ensures lsm == null ==> listener.token == old(listener.token)
      ensures lsm != null ==>
                && listener.token == 0
                && lsm.refs == old(lsm.refs) - 1
                && lsm.busRequests == old(lsm.busRequests) +
                     (if old(listener.token) != 0 then [CancelRequest(old(listener.token))] else []) +
                     (if lsm.refs == 0 && old(lsm.registered) then [Unregister] else [])
    {
      if lsm != null {
        lsm.Cancel(listener);
        lsm.Release();
      }
    }

    /**
     * ServiceResponse: applies the reply's decision.  Only a replacement
     * changes accept-languages, and it syncs once when there is a render
     * view host.
     */
    method ServiceResponse(hasContents: bool, root: Option<Value>, hasRenderViewHost: bool) returns (d: Decision)
      modifies this`acceptLanguages, this`syncs
      ensures d == Decide(old(acceptLanguages), hasContents, root)
      ensures d.Replace? ==>
                acceptLanguages == d.language && syncs == old(syncs) + (if hasRenderViewHost then 1 else 0)
      ensures !d.Replace? ==> acceptLanguages == old(acceptLanguages) && syncs == old(syncs)
    {
      d := Decide(acceptLanguages, hasContents, root);
      if !d.Replace? {
        return;
      }
      acceptLanguages := d.language;
      if hasRenderViewHost {
        syncs := syncs + 1;
      }
    }
  }

  /** The same reply delivered twice syncs at most once. */
  method SameReplyTwice(l: LanguageListener, root: Option<Value>)
    modifies l
  {
    var before := l.syncs;
    var _ := l.ServiceResponse(true, root, true);
    var _ := l.ServiceResponse(true, root, true);
    assert l.syncs <= before + 1;
  }
}
