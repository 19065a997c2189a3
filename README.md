# webOS patches to Chromium 72: a Dafny model of the neva bookkeeping components

The neva patches add webOS support to a Chromium 72 based engine. They do
not contain one large algorithm. They do contain many small, sequential
bookkeeping components, and this project models them in Dafny and proves
what they promise:

- **Luna bus requests.**
  - `pal::luna::ClientImpl` keeps the one-shot calls waiting for a reply and the open subscriptions.
  - `SystemServiceBridgeDelegateWebOS` routes a request to a subscription or a call and keeps its subscription tokens.
  - `LunaServiceManager` covers the subscription decision, listener tokens, the per-identifier manager cache, registration and priority, and random-suffix names.
- **The service-bridge close handshake** in its two variants: `webOSSystem` and `webOSServiceBridge`.
- **Web API injections.**
  - Browser side (`WebAppInjectionManager`): an allow-list and a loaded set.
  - Renderer side (`InjectionObserver`): deduplicated loads, installs in load order, uninstalls in reverse order.
- **The app runtime's browser client.**
  - Certificate-error decisions.
  - Per-child settings that are consumed when the child's command line is built.
  - Extra file-system schemes.
- **The browser context.** Extra WebSocket headers and the storage path.
- **Reply validators.**
  - The native file chooser's JSON reply.
  - The system UI language.
  - The application manager's "relaunch".
- **Small state machines.**
  - DOM suspend and resume.
  - The aggressive release policy of the delegated frame host.
  - Pending resizes and the cursor of the window tree host.
  - Media player classification.

Each external dependency is an oracle or a datatype:

- **Luna bus.** Every bus call takes a success flag and the token the bus would return.
- **JSON.** Parsed JSON is given as `Option<Json.Value>`.
- **Command line.** A map from switch name to value (`CommandLine`).
- **Script-side effects.** What a component does through V8, mojo, the compositor or the platform window is an event appended to a log.

Objects whose fields the C++ code updates are Dafny classes with `modifies` frames. Pure decisions are functions. Loops in the source are loops here, with their invariants. Where C++ iterates a `std::map` or `std::set`, the order is a ghost sequence that is only known to enumerate the keys, each exactly once.

## Model

| member | source | states |
|---|---|---|
| Json.StoredMemberReadBack | src/content/public/browser/web_contents_delegate_neva.cc:108-140 | a member stored under a key is returned by the getter of its own type and rejected by the getters of the other types; other keys find what they found before |
| Json.GettersNeedDict | src/neva/injection/common/webos/luna_service_mgr.cc:183-193 | every member lookup and typed getter fails on a value that is not a dictionary |
| Json.FindPathNest | src/extensions/shell/neva/webos_language_listener.cc:32-33 | a value nested under a path is found again by a lookup along that path |
| Json.FindPathAppend | src/extensions/shell/neva/webos_language_listener.cc:60 | looking up p + q is looking up p, then q in what p found |
| Json.FindPathNonDict | src/extensions/shell/neva/webos_language_listener.cc:60 | proof helper: a lookup through a non-dictionary fails |
| Decimal.DigitRoundTrip | src/neva/injection/webossystem/webos_servicebridge_injection.cc:37-40 | proof helper: a digit character read back gives its value |
| Decimal.ToDecimal | src/neva/injection/webossystem/webos_servicebridge_injection.cc:37-40 | std::to_string of a process id: non-empty, digits only, no leading zero unless it is "0" |
| Decimal.DecimalRoundTrip | src/neva/injection/webossystem/webos_servicebridge_injection.cc:37-40 | reading the decimal text of n gives back n |
| Decimal.DecimalInjective | src/neva/injection/webossystem/webos_servicebridge_injection.cc:37-40 | different process ids have different decimal texts |
| BridgeCommon.ServiceNameWithPid | src/neva/injection/webossystem/webos_servicebridge_injection.cc:37-40 | the name is the identifier, '-', then digits that read back as the process id |
| BridgeCommon.CallArguments | src/neva/injection/webossystem/webos_servicebridge_injection.cc:83-90 | the first two arguments when both are strings, otherwise two empty strings |
| Sequences.Reverse | src/neva/injection/common/renderer/injection_observer.cc:71-79 | reversal keeps the length |
| Sequences.ReverseAt | src/neva/injection/common/renderer/injection_observer.cc:71-79 | element i of the reversal is element n-1-i |
| Sequences.DistinctCardinality | src/neva/app_runtime/webapp_injection_manager.cc:63-73 | a distinct sequence has as many elements as its set |
| Sequences.OrderLength | src/neva/pal_service/webos/luna/luna_client_impl.cc:194-206 | an enumeration of a set visits as many keys as the set has |
| Sequences.DistinctWithin | src/neva/injection/common/renderer/injection_observer.cc:62-69 | a distinct sequence drawn from a set is no longer than the set |
| LunaClient.UnsignedToken | src/neva/pal_service/webos/luna/luna_client_impl.cc:170-171 | the subscription key is the token truncated to 32 bits, and equals it when it fits |
| LunaClient.CancelTraceDeliversEach | src/neva/pal_service/webos/luna/luna_client_impl.cc:194-206 | for each visited call: a bus cancel of its token, then its callback run with its own on-cancel value |
| LunaClient.CancelTraceCoversPending | src/neva/pal_service/webos/luna/luna_client_impl.cc:194-206 | a full iteration delivers to every pending call, with two log entries per call |
| LunaClient.UnsubscribeTraceCancelsEach | src/neva/pal_service/webos/luna/luna_client_impl.cc:208-219 | for each visited subscription, in visiting order: a bus cancel of its own token, and nothing else |
| LunaClient.UnsubscribeTraceCoversSubscriptions | src/neva/pal_service/webos/luna/luna_client_impl.cc:208-219 | a full iteration cancels every subscription on the bus, with one log entry per subscription |
| LunaClient.CancelWalk | src/neva/pal_service/webos/luna/luna_client_impl.cc:194-206 | the loop over the waiting calls visits every key once, in some iteration order, and yields exactly the cancel trace of that order |
| LunaClient.UnsubscribeWalk | src/neva/pal_service/webos/luna/luna_client_impl.cc:208-219 | the loop over the subscriptions visits every key once and yields one bus cancel per subscription, in that order |
| LunaClient.ClientImpl.constructor | src/neva/pal_service/webos/luna/luna_client_impl.cc:50-83 | the registration call depends on whether an app id is given; initialized iff registering and attaching both succeed; nothing pending |
| LunaClient.ClientImpl.Call | src/neva/pal_service/webos/luna/luna_client_impl.cc:114-144 | fails without a handle or when the bus fails, adding no record; otherwise adds exactly one fresh record with the uri, param, callback and on-cancel value |
| LunaClient.ClientImpl.CallWithDefaults | src/neva/pal_service/webos/luna/luna_client_impl.h:37-40 | Call with a do-nothing callback and an empty on-cancel value |
| LunaClient.ClientImpl.Subscribe | src/neva/pal_service/webos/luna/luna_client_impl.cc:146-176 | success iff there is a handle and the bus succeeds; then one entry under the unsigned token, which is written back only if asked for |
| LunaClient.ClientImpl.Unsubscribe | src/neva/pal_service/webos/luna/luna_client_impl.cc:178-192 | a known token is removed and cancelled on the bus; an unknown token or a missing handle changes nothing |
| LunaClient.ClientImpl.CancelWaitingCalls | src/neva/pal_service/webos/luna/luna_client_impl.cc:194-206 | no pending calls remain, and the log gains the cancel trace of every pending call in iteration order |
| LunaClient.ClientImpl.CancelAllSubscriptions | src/neva/pal_service/webos/luna/luna_client_impl.cc:208-219 | no subscriptions remain, and each one is cancelled on the bus once |
| LunaClient.ClientImpl.Destroy | src/neva/pal_service/webos/luna/luna_client_impl.cc:85-96 | subscriptions are cancelled first, then waiting calls, and the handle is gone |
| LunaClient.ClientImpl.HandleResponse | src/neva/pal_service/webos/luna/luna_client_impl.cc:222-240 | a pending record has its callback run once with the payload and only it is removed; an unknown record is ignored |
| LunaClient.ClientImpl.HandleSubscribe | src/neva/pal_service/webos/luna/luna_client_impl.cc:243-257 | a known subscription's callback runs with the payload, and the subscription stays |
| LunaClient.SubscriptionRepeats | src/neva/pal_service/webos/luna/luna_client_impl.cc:243-257 | two replies to one subscription deliver twice and keep the entry |
| ServiceBridgeDelegate.AfterUnsubscribesRemovesExactly | src/neva/pal_service/webos/system_servicebridge_delegate_webos.cc:69-75 | unsubscribing a token list removes exactly the subscriptions the list names |
| ServiceBridgeDelegate.SystemServiceBridgeDelegate.constructor | src/neva/pal_service/webos/system_servicebridge_delegate_webos.cc:25-36 | asks for the shared client on the private bus under the name and app id; no tokens yet |
| ServiceBridgeDelegate.SystemServiceBridgeDelegate.Call | src/neva/pal_service/webos/system_servicebridge_delegate_webos.cc:42-67 | a subscription is opened and its token kept only on success; any other payload is one call with on-cancel value "{}"; without a client nothing happens |
| ServiceBridgeDelegate.SystemServiceBridgeDelegate.Cancel | src/neva/pal_service/webos/system_servicebridge_delegate_webos.cc:69-75 | every recorded subscription is cancelled, then every waiting call |
| ServiceBridgeDelegate.SystemServiceBridgeDelegate.OnResponse | src/neva/pal_service/webos/system_servicebridge_delegate_webos.cc:77-79 | every reply is passed on unchanged |
| ServiceBridgeDelegate.SystemServiceBridgeDelegate.Destroy | src/neva/pal_service/webos/system_servicebridge_delegate_webos.cc:38-40 | the destructor promises exactly what Cancel does: with a handle, the bridge's subscriptions are unsubscribed in token order and the waiting calls are cancelled with their on-cancel values; without one, nothing is logged; no waiting call remains either way |
| LunaServiceMgr.RandomChar | src/neva/injection/common/webos/luna_service_mgr.cc:31-37 | the character drawn is a digit or an ASCII letter |
| LunaServiceMgr.SuffixedNameShape | src/neva/injection/common/webos/luna_service_mgr.cc:39-46 | a suffixed name is the identifier, '-', and eight alphanumeric characters |
| LunaServiceMgr.UniqueIdWithSuffix | src/neva/injection/common/webos/luna_service_mgr.cc:39-46 | every '%' of the template becomes a random alphanumeric character, and every other character is kept |
| LunaServiceMgr.IsSubscriptionPayload | src/neva/injection/common/webos/luna_service_mgr.cc:181-194 | a subscription iff the payload is a dictionary whose boolean "subscribe" or boolean "watch" is true |
| LunaServiceMgr.NonBooleanSubscribeIgnored | src/neva/injection/common/webos/luna_service_mgr.cc:184-190 | a "subscribe" member that is not a boolean is ignored, and "watch" decides |
| LunaServiceMgr.Listener.constructor | src/neva/injection/common/webos/luna_service_mgr.h:30-31 | a new listener's token is 0 |
| LunaServiceMgr.Listener.SetToken | src/neva/injection/common/webos/luna_service_mgr.h:35-36 | the token is set |
| LunaServiceMgr.LunaServiceManager.constructor | src/neva/injection/common/webos/luna_service_mgr.cc:80-85 | runs Init: initialized iff registration, attach and priority all succeed |
| LunaServiceMgr.LunaServiceManager.Init | src/neva/injection/common/webos/luna_service_mgr.cc:125-163 | the browser registers under its plain identifier, anything else as an application service under a suffixed name; priority is high only for the phone app; idempotent once initialized |
| LunaServiceMgr.LunaServiceManager.CallFromApplication | src/neva/injection/common/webos/luna_service_mgr.cc:172-209 | one request, subscribing iff the payload says so; the token is stored in the listener and returned on success, 0 on failure |
| LunaServiceMgr.LunaServiceManager.Call | src/neva/injection/common/webos/luna_service_mgr.cc:165-170 | CallFromApplication with an empty application id |
| LunaServiceMgr.LunaServiceManager.Cancel | src/neva/injection/common/webos/luna_service_mgr.cc:211-226 | a null listener or a zero token is ignored; otherwise the token is cancelled and reset to 0 |
| LunaServiceMgr.LunaServiceManager.Release | src/neva/injection/common/webos/luna_service_mgr.cc:87-99 | the last owner's release unregisters a registered handle |
| LunaServiceMgr.ManagerStorage.constructor | src/neva/injection/common/webos/luna_service_mgr.h:64 | the cache starts empty |
| LunaServiceMgr.ManagerStorage.GetManager | src/neva/injection/common/webos/luna_service_mgr.cc:101-116 | a live cached manager is shared; otherwise a new one is cached and returned only if it initialized, else null |
| WebOSSystemBridge.BridgeRegistry.constructor | src/neva/injection/webossystem/webos_servicebridge_injection.cc:49-51 | nobody waiting and not closing |
| WebOSSystemBridge.BridgeRegistry.SetClosing | src/neva/injection/webossystem/webos_servicebridge_injection.cc:49 | the closing flag is set |
| WebOSSystemBridge.ServiceBridge.constructor | src/neva/injection/webossystem/webos_servicebridge_injection.cc:53-77 | connects under the pid-suffixed name iff there is an identifier and a connector |
| WebOSSystemBridge.ServiceBridge.DoCall | src/neva/injection/webossystem/webos_servicebridge_injection.cc:92-98 | with an identifier, the bridge waits and the call is forwarded |
| WebOSSystemBridge.ServiceBridge.Call | src/neva/injection/webossystem/webos_servicebridge_injection.cc:83-90 | DoCall with the string arguments |
| WebOSSystemBridge.ServiceBridge.Cancel | src/neva/injection/webossystem/webos_servicebridge_injection.cc:100-106 | with an identifier, the cancel is forwarded and the bridge stops waiting |
| WebOSSystemBridge.ServiceBridge.CloseNotify | src/neva/injection/webossystem/webos_servicebridge_injection.cc:176-189 | notifies only while closing with nobody waiting |
| WebOSSystemBridge.ServiceBridge.Response | src/neva/injection/webossystem/webos_servicebridge_injection.cc:113-150 | while closing the bridge stops waiting; the handler runs if present, and the close notification follows iff it ran and the set drained |
| WebOSSystemBridge.ServiceBridge.Destroy | src/neva/injection/webossystem/webos_servicebridge_injection.cc:79-81 | the destructor promises exactly what Cancel does: with an identifier the bridge leaves the waiting set and one cancel is forwarded; without one nothing changes |
| WebOSServiceBridge.BridgeRegistry.constructor | src/neva/injection/webosservicebridge/webos_servicebridge_injection.cc:55-57 | nobody waiting and not closing |
| WebOSServiceBridge.BridgeRegistry.SetClosing | src/neva/injection/webosservicebridge/webos_servicebridge_injection.cc:55 | the closing flag is set |
| WebOSServiceBridge.ServiceBridge.constructor | src/neva/injection/webosservicebridge/webos_servicebridge_injection.cc:61-83 | connects under the pid-suffixed name iff there is an identifier and a connector |
| WebOSServiceBridge.ServiceBridge.DoCall | src/neva/injection/webosservicebridge/webos_servicebridge_injection.cc:98-105 | with an identifier the call is forwarded, and the bridge waits only while closing |
| WebOSServiceBridge.ServiceBridge.Call | src/neva/injection/webosservicebridge/webos_servicebridge_injection.cc:89-96 | DoCall with the string arguments |
| WebOSServiceBridge.ServiceBridge.Cancel | src/neva/injection/webosservicebridge/webos_servicebridge_injection.cc:107-113 | with an identifier, the cancel is forwarded and the bridge stops waiting |
| WebOSServiceBridge.ServiceBridge.CallJSHandler | src/neva/injection/webosservicebridge/webos_servicebridge_injection.cc:123-147 | the handler runs iff the wrapper holds a function under its name |
| WebOSServiceBridge.ServiceBridge.CloseNotify | src/neva/injection/webosservicebridge/webos_servicebridge_injection.cc:194-210 | notifies whenever the wrapper exists |
| WebOSServiceBridge.ServiceBridge.Response | src/neva/injection/webosservicebridge/webos_servicebridge_injection.cc:149-161 | the handler runs only on success; while closing the bridge stops waiting whatever the status, and a notification follows iff the set drained |
| WebOSServiceBridge.ServiceBridge.Destroy | src/neva/injection/webosservicebridge/webos_servicebridge_injection.cc:85-87 | the destructor promises exactly what Cancel does: with an identifier the bridge leaves the waiting set and one cancel is forwarded; without one nothing changes |
| WebOSServiceBridge.ConstructorCallback | src/neva/injection/webosservicebridge/webos_servicebridge_injection.cc:247-261 | without `new` it throws and creates nothing; with `new` it creates a bridge |
| InjectionManager.LoadMessagesAt | src/neva/app_runtime/webapp_injection_manager.cc:63-73 | one load message per name, in order |
| InjectionManager.WebAppInjectionManager.constructor | src/neva/app_runtime/webapp_injection_manager.cc:29-43 | the allow-list is what the build flags enable; nothing loaded |
| InjectionManager.WebAppInjectionManager.RequestLoadExtension | src/neva/app_runtime/webapp_injection_manager.cc:51-61 | an allowed, not yet loaded name with a host is recorded and sent once; anything else changes nothing |
| InjectionManager.WebAppInjectionManager.RequestReloadExtensions | src/neva/app_runtime/webapp_injection_manager.cc:63-73 | one load message per loaded name in iteration order; the loaded set is kept |
| InjectionManager.WebAppInjectionManager.RequestClearExtensions | src/neva/app_runtime/webapp_injection_manager.cc:75-82 | with a host, everything is forgotten and one clear message is sent |
| InjectionManager.ReloadCoversLoaded | src/neva/app_runtime/webapp_injection_manager.cc:63-73 | a reload sends exactly one message per loaded name |
| InjectionObserver.Names | src/neva/injection/common/renderer/injection_observer.cc:62-69 | the names of the contexts, position by position |
| InjectionObserver.InstallsAt | src/neva/injection/common/renderer/injection_observer.cc:81-86 | one install per context, in load order |
| InjectionObserver.UninstallsAppend | src/neva/injection/common/renderer/injection_observer.cc:71-79 | the uninstalls of a concatenation are the concatenation of the uninstalls |
| InjectionObserver.UninstallsReverse | src/neva/injection/common/renderer/injection_observer.cc:71-79 | walking the contexts backwards uninstalls in exactly the reverse of load order |
| InjectionObserver.UninstallBackwards | src/neva/injection/common/renderer/injection_observer.cc:72-76 | the backward loop yields the uninstall calls of the contexts taken last to first |
| InjectionObserver.ReverseAppend | src/neva/injection/common/renderer/injection_observer.cc:71-79 | reversing a concatenation swaps and reverses its parts |
| InjectionObserver.ReverseSingleOrEmpty | src/neva/injection/common/renderer/injection_observer.cc:71-79 | proof helper: a sequence of at most one element is its own reversal |
| InjectionObserver.NewContextNamesExact | src/neva/injection/common/renderer/injection_observer.cc:37-44 | loading a list adds each new name that has an install API exactly once, and nothing else |
| InjectionObserver.InjectionObserver.constructor | src/neva/injection/common/renderer/injection_observer.cc:37-44 | the preloaded names are loaded in order |
| InjectionObserver.InjectionObserver.OnLoadExtension | src/neva/injection/common/renderer/injection_observer.cc:62-69 | a name already seen changes nothing; a new one is remembered, and it gets a context at the end only if it has an API |
| InjectionObserver.InjectionObserver.OnClearExtensions | src/neva/injection/common/renderer/injection_observer.cc:71-79 | installed contexts are uninstalled from the last loaded to the first; then everything is forgotten |
| InjectionObserver.InjectionObserver.DidClearWindowObject | src/neva/injection/common/renderer/injection_observer.cc:81-86 | every context moves to the frame and is installed there, in load order |
| InjectionObserver.InjectionObserver.OnMessageReceived | src/neva/injection/common/renderer/injection_observer.cc:48-56 | only load and clear messages are handled, each as its handler does |
| InjectionObserver.ContextsWithinSeen | src/neva/injection/common/renderer/injection_observer.cc:62-69 | there are never more contexts than names seen |
| BrowserClient.AllowCertificateError | src/neva/app_runtime/browser/app_runtime_content_browser_client.cc:133-162 | the callback runs exactly once, with Continue iff the delegate's policy is to ignore |
| BrowserClient.AdditionalAllowedSchemesForFileSystem | src/neva/app_runtime/browser/app_runtime_content_browser_client.cc:314-321 | the given schemes, plus "file" iff the browser has the file-API switch |
| BrowserClient.BrowserMainParts.constructor | src/neva/app_runtime/browser/app_runtime_content_browser_client.cc:115-125 | new main parts hold no extra parts |
| BrowserClient.BrowserMainParts.AddParts | src/neva/app_runtime/browser/app_runtime_content_browser_client.cc:115-125 | extra parts are added at the end |
| BrowserClient.ManagedSwitchesDistinct | src/neva/app_runtime/browser/app_runtime_content_browser_client.cc:184-270 | proof helper: the switches the client writes all have different names |
| BrowserClient.NativeScrollSwitchesDistinct | src/neva/app_runtime/browser/app_runtime_content_browser_client.cc:215-266 | proof helper: the native-scroll switches all have different names |
| BrowserClient.SameOutsideCompose | src/neva/app_runtime/browser/app_runtime_content_browser_client.cc:184-270 | proof helper: steps that each touch only their own switches together touch only the union |
| BrowserClient.SameOnFromOutside | src/neva/app_runtime/browser/app_runtime_content_browser_client.cc:184-270 | proof helper: a step leaves the switches it does not write as they were |
| BrowserClient.NativeScrollAppliedTransfer | src/neva/app_runtime/browser/app_runtime_content_browser_client.cc:215-266 | proof helper: the native-scroll result depends only on the native-scroll switches of the input |
| BrowserClient.AppendSwitchIfMissing | src/neva/app_runtime/browser/app_runtime_content_browser_client.cc:219-220 | the switch is there afterwards, keeping any value it had, and nothing else changes |
| BrowserClient.NativeScrollSwitches | src/neva/app_runtime/browser/app_runtime_content_browser_client.cc:215-266 | native scroll and smooth scrolling are on; CSSOMSmoothScroll comes before the existing blink features; the gesture delta is the browser's or 180; no other switch changes |
| BrowserClient.DefaultGestureScrollText | src/neva/app_runtime/browser/app_runtime_content_browser_client.cc:248-265 | the default gesture delta 180 is written as the text "180" |
| BrowserClient.StepsCompose | src/neva/app_runtime/browser/app_runtime_content_browser_client.cc:184-270 | the four steps together have exactly the effect AppendExtraCommandLineSwitches promises |
| BrowserClient.StepsFrame | src/neva/app_runtime/browser/app_runtime_content_browser_client.cc:184-270 | the four steps leave every unmanaged switch as it was, and the three before native scroll leave the native-scroll switches alone |
| BrowserClient.ContentBrowserClient.constructor | src/neva/app_runtime/browser/app_runtime_content_browser_client.h:119-135 | no parts, do-not-track and plugin flags off, and no per-child settings |
| BrowserClient.ContentBrowserClient.SetBrowserExtraParts | src/neva/app_runtime/browser/app_runtime_content_browser_client.h:119 | the extra parts are stored |
| BrowserClient.ContentBrowserClient.CreateBrowserMainParts | src/neva/app_runtime/browser/app_runtime_content_browser_client.cc:115-125 | new main parts are kept and returned, holding the extra parts if there are any |
| BrowserClient.ContentBrowserClient.SetDoNotTrack | src/neva/app_runtime/browser/app_runtime_content_browser_client.h:99-100 | the flag the getter reads back is set |
| BrowserClient.ContentBrowserClient.SetPluginLoaded | src/neva/app_runtime/browser/app_runtime_content_browser_client.h:103-104 | the flag the getter reads back is set |
| BrowserClient.ContentBrowserClient.SetV8SnapshotPath | src/neva/app_runtime/browser/app_runtime_content_browser_client.cc:343-348 | map insert: a path already recorded for the child is kept |
| BrowserClient.ContentBrowserClient.SetV8ExtraFlags | src/neva/app_runtime/browser/app_runtime_content_browser_client.cc:350-353 | map insert: flags already recorded for the child are kept |
| BrowserClient.ContentBrowserClient.SetUseNativeScroll | src/neva/app_runtime/browser/app_runtime_content_browser_client.cc:272-277 | map insert: the first setting for the child is kept |
| BrowserClient.ContentBrowserClient.AppendExtraCommandLineSwitches | src/neva/app_runtime/browser/app_runtime_content_browser_client.cc:184-270 | no-sandbox is on; the child's recorded path, flags and native scroll are applied and consumed, and other children's entries stay; no switch the client does not manage changes |
| BrowserClient.ContentBrowserClient.AppendSnapshotPath | src/neva/app_runtime/browser/app_runtime_content_browser_client.cc:189-195 | a recorded path becomes the switch value and is consumed |
| BrowserClient.ContentBrowserClient.AppendJsFlags | src/neva/app_runtime/browser/app_runtime_content_browser_client.cc:197-209 | recorded flags come first, then a space and the flags already on the line; the entry is consumed |
| BrowserClient.ContentBrowserClient.AppendNativeScroll | src/neva/app_runtime/browser/app_runtime_content_browser_client.cc:211-269 | native scroll is applied only if recorded as on, and the entry is consumed either way |
| BrowserContext.NetworkDelegate.constructor | src/neva/app_runtime/browser/app_runtime_browser_context.cc:45-47 | no extra headers |
| BrowserContext.NetworkDelegate.AppendExtraWebSocketHeader | src/neva/app_runtime/browser/app_runtime_browser_context.cc:49-52 | map insert: a key already present keeps its first value |
| BrowserContext.NetworkDelegate.OnBeforeSendHeaders | src/neva/app_runtime/browser/app_runtime_browser_context.cc:55-65 | a ws or wss request gets every stored header, replacing any value it had; any other request is unchanged |
| BrowserContext.JoinPath | src/neva/app_runtime/browser/app_runtime_browser_context.cc:85 | the joined path ends with the component and, after a real directory, starts with it |
| BrowserContext.AppRuntimeBrowserContext.constructor | src/neva/app_runtime/browser/app_runtime_browser_context.cc:70-77 | no network delegate yet |
| BrowserContext.AppRuntimeBrowserContext.GetPath | src/neva/app_runtime/browser/app_runtime_browser_context.cc:81-89 | with the user-data-dir switch, that directory joined with the storage name; otherwise empty |
| BrowserContext.AppRuntimeBrowserContext.AppendExtraWebSocketHeaderIO | src/neva/app_runtime/browser/app_runtime_browser_context.cc:220-233 | the layered delegate is created and installed on the first call only, and reused afterwards; each call inserts the header into it |
| FileChooser.EntryFile | src/content/public/browser/web_contents_delegate_neva.cc:122-149 | an element is accepted iff it has string file_path, display_name and modification_time and integer size; the file keeps the path and display name |
| FileChooser.ListFilesAt | src/content/public/browser/web_contents_delegate_neva.cc:120-150 | the list gives files iff every element is acceptable, one file per element, in list order |
| FileChooser.Validate | src/content/public/browser/web_contents_delegate_neva.cc:86-153 | selects iff the reply parses to a dictionary with integer "mode", list "file_list", and every element acceptable; the mode is passed through |
| FileChooser.RespondCallback | src/content/public/browser/web_contents_delegate_neva.cc:86-153 | the indexed walk selects exactly what Validate says: all or nothing |
| FileChooser.EntryRoundTrip | src/content/public/browser/web_contents_delegate_neva.cc:132-149 | a file written as an element is read back, whatever its size and modification time |
| FileChooser.ValidateRoundTrip | src/content/public/browser/web_contents_delegate_neva.cc:86-153 | a selection written as a reply is validated back to itself |
| FileChooser.BadEntryDropsAll | src/content/public/browser/web_contents_delegate_neva.cc:122-145 | one bad element anywhere drops the whole reply |
| LanguageListener.Decide | src/extensions/shell/neva/webos_language_listener.cc:51-74 | ignore without contents, without a parse or without the path; abort on a non-string; keep an equal value; replace a different one |
| LanguageListener.DecideIdempotent | src/extensions/shell/neva/webos_language_listener.cc:64-68 | once a reply has been applied, the same reply is kept |
| LanguageListener.ReplyReplaces | src/extensions/shell/neva/webos_language_listener.cc:32-33 | a language at settings/localeInfo/locales/UI replaces a different current value |
| LanguageListener.LanguageListener.constructor | src/extensions/shell/neva/webos_language_listener.cc:39-44 | gets the browser's manager and, if there is one, subscribes to getSystemSettings |
| LanguageListener.LanguageListener.Destroy | src/extensions/shell/neva/webos_language_listener.cc:46-49 | cancels the listener's request through the manager and drops the shared reference; the last reference unregisters a registered manager |
| LanguageListener.LanguageListener.ServiceResponse | src/extensions/shell/neva/webos_language_listener.cc:51-74 | only a replacement changes accept-languages, and it syncs once iff there is a render view host |
| RegisterApp.ToggleOnResponse | src/extensions/shell/neva/webos_register_app.cc:60-81 | toggles iff there are contents, a top window and a host, and the body is a dictionary whose string "message" is "relaunch" |
| RegisterApp.OtherMessagesIgnored | src/extensions/shell/neva/webos_register_app.cc:73-79 | any other message does not toggle |
| RegisterApp.RegisterApp.constructor | src/extensions/shell/neva/webos_register_app.cc:38-53 | without the app-id switch nothing is obtained or sent; otherwise a subscribing registerNativeApp request goes out under the app id |
| RegisterApp.RegisterApp.Destroy | src/extensions/shell/neva/webos_register_app.cc:55-58 | cancels the listener's request and releases the manager |
| RenderFrameObserver.ModalDepthAppend | src/neva/app_runtime/renderer/app_runtime_render_frame_observer.cc:69-88 | entering a modal loop adds one to the depth, exiting takes one away, and anything else leaves it |
| RenderFrameObserver.PressureFor | src/neva/app_runtime/renderer/app_runtime_render_frame_observer.cc:151-162 | 1 is moderate, 2 is critical, anything else is no notification |
| RenderFrameObserver.ArgbRoundTrip | src/neva/app_runtime/renderer/app_runtime_render_frame_observer.cc:60-66 | each colour component is read back from its own byte, in ARGB order |
| RenderFrameObserver.ArgbOfComponents | src/neva/app_runtime/renderer/app_runtime_render_frame_observer.cc:60-66 | every colour is the packing of its own components |
| RenderFrameObserver.AppRuntimeRenderFrameObserver.constructor | src/neva/app_runtime/renderer/app_runtime_render_frame_observer.h:60 | DOM not suspended |
| RenderFrameObserver.AppRuntimeRenderFrameObserver.SuspendDOM | src/neva/app_runtime/renderer/app_runtime_render_frame_observer.cc:69-75 | only the first call while resumed enters the modal loop; the loop is open exactly while suspended |
| RenderFrameObserver.AppRuntimeRenderFrameObserver.ResumeDOM | src/neva/app_runtime/renderer/app_runtime_render_frame_observer.cc:77-88 | nothing unless suspended; otherwise exits the modal loop and tells a bound host |
| RenderFrameObserver.AppRuntimeRenderFrameObserver.SetVisibilityState | src/neva/app_runtime/renderer/app_runtime_render_frame_observer.cc:94-99 | the initial-state flag is set iff the state is Launching |
| RenderFrameObserver.AppRuntimeRenderFrameObserver.SetDisallowScrollbarsInMainFrame | src/neva/app_runtime/renderer/app_runtime_render_frame_observer.cc:120-127 | ignored outside the main frame |
| RenderFrameObserver.AppRuntimeRenderFrameObserver.OnNotifyMemoryPressure | src/neva/app_runtime/renderer/app_runtime_render_frame_observer.cc:147-163 | ignored outside the main frame and for unknown levels |
| RenderFrameObserver.AppRuntimeRenderFrameObserver.SetBackgroundColor | src/neva/app_runtime/renderer/app_runtime_render_frame_observer.cc:60-67 | the base background becomes the ARGB packing |
| RenderFrameObserver.AppRuntimeRenderFrameObserver.DidClearWindowObject | src/neva/app_runtime/renderer/app_runtime_render_frame_observer.cc:129-136 | only the main frame tells the host |
| DelegatedFrameHost.DelegatedFrameHost.constructor | src/content/browser/renderer_host/delegated_frame_host_neva.cc:43-53 | the policy is on iff the switch is present; all flags are off |
| DelegatedFrameHost.DelegatedFrameHost.WasShown | src/content/browser/renderer_host/delegated_frame_host_neva.cc:57-74 | with the policy off nothing changes; on, cleanup is cancelled, resuming is deferred right after a hide, and otherwise drawing resumes |
| DelegatedFrameHost.DelegatedFrameHost.WasHidden | src/content/browser/renderer_host/delegated_frame_host_neva.cc:76-97 | with the policy on: a placeholder frame only with support, a first swap and a valid surface; drawing is suspended, the host is marked hidden, the frame is evicted and cleanup is posted |
| DelegatedFrameHost.DelegatedFrameHost.RunBackgroundCleanup | src/content/browser/renderer_host/delegated_frame_host_neva.cc:99-101 | a cleanup that is still pending purges the unlocked frames |
| DelegatedFrameHost.DelegatedFrameHost.SubmitCompositorFrame | src/content/browser/renderer_host/delegated_frame_host_neva.cc:103-118 | a pending deferral is cleared, drawing resumes and one full redraw is scheduled; a first swap has happened |
| DelegatedFrameHost.DelegatedFrameHost.OnFirstSurfaceActivation | src/content/browser/renderer_host/delegated_frame_host_neva.cc:120-126 | the surface's scale factor is remembered |
| WindowTreeHost.WindowTreeHostPlatform.constructor | src/ui/aura/window_tree_host_platform.cc:74-77 | no platform window and a null cursor |
| WindowTreeHost.WindowTreeHostPlatform.WithProperties | src/ui/aura/window_tree_host_platform.cc:61-72 | the given bounds, and a platform window |
| WindowTreeHost.WindowTreeHostPlatform.SetPlatformWindow | src/ui/aura/window_tree_host_platform.cc:103-106 | a platform window is set |
| WindowTreeHost.WindowTreeHostPlatform.GetBoundsInPixels | src/ui/aura/window_tree_host_platform.cc:136-138 | the platform window's bounds, or an empty rectangle without one |
| WindowTreeHost.WindowTreeHostPlatform.SetBoundsInPixels | src/ui/aura/window_tree_host_platform.cc:140-146 | the pending size and allocation are recorded before the platform window is asked |
| WindowTreeHost.WindowTreeHostPlatform.OnBoundsChanged | src/ui/aura/window_tree_host_platform.cc:244-260 | a move iff the origin changed; a resize iff an allocation is pending, the size changed or the scale changed, carrying the pending allocation only at the pending size, after which nothing is pending |
| WindowTreeHost.WindowTreeHostPlatform.SetCursorNative | src/ui/aura/window_tree_host_platform.cc:202-233 | the same cursor does nothing; any other is recorded; a pointer gets the default custom cursor, a none cursor is not applied, and any other is set |
| WindowTreeHost.WindowTreeHostPlatform.CaptureSystemKeyEvents | src/ui/aura/window_tree_host_platform.cc:167-182 | at most one hook; reports whether one was created |
| WindowTreeHost.WindowTreeHostPlatform.ReleaseSystemKeyEventCapture | src/ui/aura/window_tree_host_platform.cc:184-186 | no hook afterwards |
| WindowTreeHost.WindowTreeHostPlatform.IsKeyLocked | src/ui/aura/window_tree_host_platform.cc:188-190 | false without a keyboard hook, otherwise what the hook says |
| MediaPlayerFactory.GetMediaPlayerType | src/media/blink/neva/webos/mediaplayerneva_factory_webos.cc:32-44 | UMS iff the webOS pattern does not match; Camera iff both patterns match; None iff only the webOS pattern matches |
| MediaPlayerFactory.CreateMediaPlayerNeva | src/media/blink/neva/webos/mediaplayerneva_factory_webos.cc:46-64 | a UMS player for UMS, a camera player for Camera in GStreamer builds, and otherwise none |
| MediaPlayerFactory.CameraIsWebOS | src/media/blink/neva/webos/mediaplayerneva_factory_webos.cc:34-36 | a camera type is classified as Camera, never UMS |
| MediaPlayerFactory.OtherWebOSServiceGetsNoPlayer | src/media/blink/neva/webos/mediaplayerneva_factory_webos.cc:37-38 | other webOS service types get no player |
| MediaPlayerFactory.PlainTypeGetsUms | src/media/blink/neva/webos/mediaplayerneva_factory_webos.cc:41-43 | a type outside the webOS prefix gets a UMS player |

## Left out

- **The Luna bus library, the glib main context and mojo bindings.** Each bus call is an oracle giving success and a token. Their internals are not modelled.
- **Callbacks run after being moved.** `luna_client_impl.cc` runs the caller's callback on the failure paths of Call and Subscribe after the callback was moved into the record. `LunaClient.ClientImpl.Call` and `LunaClient.ClientImpl.Subscribe` claim only that failure returns false and records nothing.
- **Dangling context in HandleSubscribe.** `HandleSubscribe` reads a subscription through the raw context pointer. The model looks the subscription up by key, so a context freed by Unsubscribe is simply not found.
- **V8, gin and Blink.** Script compilation and running, wrapper lookup and JS handler invocation become events and flags, such as "the wrapper exists" and "the handler is a function".
- **Parsing.** JSON parsing is given, and `std::to_string` is the decimal text of a natural number.
- **Thread hops, timers and the GetManager mutex.** The PostTask to the IO thread in AppendExtraWebSocketHeader and the delayed cleanup task are modelled sequentially. An explicit RunBackgroundCleanup step stands for the delayed task.
- **Randomness and the process id.** `random_char` takes its draws from a parameter stream. The value the distribution returns is reduced modulo 62. `getpid` is a parameter.
- **Floating point.** Device scale factors are opaque integers compared for equality. The network-quiet timeout is not modelled.
- **Iteration order.** The order of `std::map` and `std::set` iteration is left open: a ghost enumeration of the keys.
- **Switch names whose definitions are not part of this model.** They are spelled as Chromium defines them. The proofs rely only on their being distinct. Affected: `kWebOSAppId`, `kUserDataDir`, `kEnableAggressiveReleasePolicy` and the native-scroll switches.
- **`use_native_scroll_map_`.** `app_runtime_content_browser_client.h` does not declare it, but the `.cc` file uses it. It is modelled as a map from child id to bool, like the other per-child maps.
- **Header-name case.** `HttpRequestHeaders::SetHeader` compares header names case-insensitively. `BrowserContext.NetworkDelegate.OnBeforeSendHeaders` treats names as exact map keys.
- **BrowserContext.JoinPath.** It simplifies `FilePath::Append`: a component after an empty path or "." stands alone, otherwise the two are joined by one '/'. Separator normalisation and absolute components are not modelled.
- **MediaPlayerFactory.WildcardMatches.** It is vocabulary, not a model of `net::MatchesMimeType`. It states only prefix and exact matching. `net::MatchesMimeType` also ignores case in the top-level type and handles parameters, so the classification itself takes an arbitrary `matches` parameter.
- **Json getters (FindKey, FindBool, GetInt, GetString, GetList).** They are vocabulary for `base::Value`, not a model of its code. What the model relies on is stated by `Json.StoredMemberReadBack` and `Json.GettersNeedDict`.
- **RenderFrameObserver.AppRuntimeRenderFrameObserver.SetBackgroundColor.** It takes bytes. Skia asserts that each component fits in a byte, and out-of-range values are not modelled.
- **WindowTreeHost.WindowTreeHostPlatform.SetBoundsInPixels and SetCursorNative.** Both require a platform window, because the source dereferences it. `widget_`, IME observers and the forwarding calls (Show, Hide, capture, MoveCursorTo) are one-line delegations and are left out.
- **Calls made through a service manager.** A failed GetManager or bus call leaves the listener's token at 0. The cache's weak pointer is a reference count.
- **WebOSSystemBridge.ServiceBridge.DoCall, Cancel and Destroy without a connector.** When the identifier is set but `ChildThread::GetConnector()` returns null, the constructor returns before binding `system_bridge_`. DoCall, Cancel and the destructor then call through an unbound interface pointer. The model has no connector flag and forwards as if the bridge were bound. The same holds for `WebOSServiceBridge.ServiceBridge`.
- **LunaServiceMgr.ManagerStorage.GetManager: the failed manager's destructor.** When a new manager fails to initialise, `manager.reset()` destroys it. If it had registered a handle before failing, its destructor calls LSUnregister. The model returns null and records no Unregister for that discarded manager.
- **The language listener's CHECK failure.** A non-string value at the UI-language path crashes in `GetString`. It is the `Abort` decision, with no state change.
- **The rest of the app runtime's browser client** (URL loaders, quota, notifications, and so on) and the platform-window forwarding. These are out of scope, as are LoadAppsFromCommandLine and the generated-test and declaration-only files.
