/**
 * webos::RegisterApp: an app shell's registration with the webOS
 * application manager.  Built from the app-id switch, it subscribes to
 * registerNativeApp through the identifier's LunaServiceManager, and a
 * "relaunch" message from the application manager toggles fullscreen.
 *
 * The observed web contents, its top-level window and the window's host
 * are flags saying whether each is present.
 */
module RegisterApp {
  import opened Wrappers
  import opened Json
  import opened CommandLine
  import opened LunaServiceMgr

  /** extensions::switches::kWebOSAppId */
  const WebOSAppId: string := "webos-appid"

  const MessageKey: string := "message"
  const RegisterAppMethod: string := "palm://com.webos.applicationManager/registerNativeApp"
  const RegisterAppRequest: string := "{\"subscribe\":true}"

  /** What the JSON reader makes of RegisterAppRequest. */
  function RegisterAppRequestValue(): Value {
    Dict(map["subscribe" := Bool(true)])
  }

  /**
   * ServiceResponse's decision: toggle fullscreen only for a body that is a
   * dictionary whose string "message" is "relaunch", and only when the
   * contents, its top-level window and the window's host all exist.
   */
  function ToggleOnResponse(hasContents: bool, root: Option<Value>, hasTopWindow: bool, hasHost: bool): (toggle: bool)
    ensures toggle ==> hasContents && hasTopWindow && hasHost
    ensures toggle ==> root.Some? && root.value.Dict? && MessageKey in root.value.entries &&
                       root.value.entries[MessageKey] == Str("relaunch")
    ensures (hasContents && hasTopWindow && hasHost && root.Some? && root.value.Dict? &&
             MessageKey in root.value.entries && root.value.entries[MessageKey] == Str("relaunch")) ==> toggle
  {
    if !hasContents || root.None? || !root.value.Dict? then false
    else
      var message := GetString(root.value, MessageKey);
      message == Some("relaunch") && hasTopWindow && hasHost
  }

  /** Any other message, or "relaunch" that is not a string, leaves the window alone. */
  lemma OtherMessagesIgnored(entries: map<string, Value>, hasTopWindow: bool, hasHost: bool)
    requires MessageKey in entries && entries[MessageKey] != Str("relaunch")
    ensures !ToggleOnResponse(true, Some(Dict(entries)), hasTopWindow, hasHost)
  {
  }

  class RegisterApp {
    /** The LunaServiceManagerListener part of this object. */
    const listener: Listener
    /** lsm_ */
    var lsm: LunaServiceManager?

    /**
     * Without the app-id switch nothing is obtained or sent.  Otherwise the
     * manager for the app id is obtained and, if there is one, a
     * subscribing registerNativeApp request goes out under that app id.
     */
    constructor (cmd: Switches, storage: ManagerStorage, draws: nat -> nat,
                 registerOk: bool, attachOk: bool, priorityOk: bool, busOk: bool, busToken: nat)
      requires storage.Valid()
      modifies storage, storage.storage.Values
      ensures storage.Valid()
      ensures !HasSwitch(cmd, WebOSAppId) ==>
                lsm == null && storage.storage == old(storage.storage) &&
                forall m :: m in old(storage.storage.Values) ==> m.busRequests == old(m.busRequests) && m.refs == old(m.refs)
      ensures lsm != null ==>
                && HasSwitch(cmd, WebOSAppId)
                && lsm.identifier == cmd[WebOSAppId] && lsm.initialized
                && |lsm.busRequests| > 0
                && lsm.busRequests[|lsm.busRequests| - 1] ==
                     Request(Subscribing, RegisterAppMethod, RegisterAppRequest, cmd[WebOSAppId])
                && listener.token == (if busOk then busToken else 0)
                && lsm.refs > 0
      ensures lsm == null ==> listener.token == 0
    {
      listener := new Listener();
      lsm := null;
      new;
      if !HasSwitch(cmd, WebOSAppId) {
        return;
      }
      var appId := SwitchValue(cmd, WebOSAppId);
      var m := storage.GetManager(appId, draws, registerOk, attachOk, priorityOk);
      lsm := m;
      if m != null {
        var _ := m.CallFromApplication(RegisterAppMethod, RegisterAppRequest, Some(RegisterAppRequestValue()),
                                       appId, listener, busOk, busToken);
      }
    }

    /** The destructor: cancel the listener's request, then give up this owner's share of the manager. */
    method Destroy()
      requires lsm != null ==> lsm.refs > 0
      modifies lsm, listener
      ensures lsm == null ==> listener.token == old(listener.token)
      ensures lsm != null ==>
                && listener.token == 0
                && lsm.refs == old(lsm.refs) - 1
                && lsm.busRequests == old(lsm.busRequests) +
                     (if old(listener.token) != 0 then [CancelRequest(old(listener.token))] else []) +
                     (if lsm.refs == 0 && old(lsm.registered) then [Unregister] else [])
    {
      if lsm != null {
        lsm.Cancel(listener);
        lsm.Release();
      }
    }
  }
}
