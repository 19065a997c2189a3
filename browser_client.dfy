/**
 * app_runtime::AppRuntimeContentBrowserClient: the browser-process hooks
 * of the web app runtime that this model covers.  It decides certificate
 * errors from the web view's policy, and it composes each child process's
 * command line from per-child settings that are recorded once and
 * consumed when that child's command line is built.
 *
 * The switch names are spelled here as the switch headers define them;
 * the proofs rely only on their being different from each other.
 */
module BrowserClient {
  import opened Wrappers
  import opened Decimal
  import opened CommandLine

  const NoSandbox: string := "no-sandbox"
  const V8SnapshotBlobPath: string := "v8-snapshot-blob-path"
  const JavaScriptFlags: string := "js-flags"
  const EnableWebOSNativeScroll: string := "enable-webos-native-scroll"
  const EnableSmoothScrolling: string := "enable-smooth-scrolling"
  const EnableBlinkFeatures: string := "enable-blink-features"
  const EnablePreferCompositingToLCDText: string := "enable-prefer-compositing-to-lcd-text"
  const CustomGestureScrollDelta: string := "custom-mouse-wheel-gesture-scroll-delta-on-webos-native-scroll"
  const EnableFileAPIDirectoriesAndSystem: string := "enable-file-api-directories-and-system"
  const FileScheme: string := "file"

  /** kDefaultGestureScrollDistanceOnNativeScroll */
  const DefaultGestureScrollDistance: nat := 180

  /** Every switch AppendExtraCommandLineSwitches may write. */
  const ManagedSwitches: set<string> :=
    {NoSandbox, V8SnapshotBlobPath, JavaScriptFlags, EnableWebOSNativeScroll, EnableSmoothScrolling,
     EnableBlinkFeatures, EnablePreferCompositingToLCDText, CustomGestureScrollDelta}

  /** The web view's SSL certificate error policy. */
  datatype CertPolicy = PolicyIgnore | PolicyDeny | PolicyDefault

  datatype CertResult = Continue | Deny

  /**
   * The certificate decision the HCAP requirements ask for: continue only
   * when there is a web view delegate whose policy is to ignore the error.
   */
  function CertificateDecision(delegatePolicy: Option<CertPolicy>): CertResult
  {
    if delegatePolicy == Some(PolicyIgnore) then Continue else Deny
  }

  /**
   * AllowCertificateError: `delegatePolicy` is None without web contents or
   * delegate.  Returns every result the callback was run with.
   */
  method AllowCertificateError(delegatePolicy: Option<CertPolicy>) returns (results: seq<CertResult>)
    ensures results == [CertificateDecision(delegatePolicy)]
    ensures results[0] == Continue <==> delegatePolicy == Some(PolicyIgnore)
  {
    results := [];
    if delegatePolicy.Some? {
      match delegatePolicy.value {
        case PolicyIgnore =>
          results := results + [Continue];
          return;
        case PolicyDeny =>
          results := results + [Deny];
          return;
        case PolicyDefault =>
      }
    }
    results := results + [Deny];
  }

  /**
   * GetAdditionalAllowedSchemesForFileSystem: the scheme list it is given,
   * with "file" appended when the browser has the file-API switch.
   */
  method AdditionalAllowedSchemesForFileSystem(schemes: seq<string>, browser: Switches) returns (r: seq<string>)
    ensures |r| >= |schemes| && r[..|schemes|] == schemes
    ensures HasSwitch(browser, EnableFileAPIDirectoriesAndSystem) ==> r == schemes + [FileScheme]
    ensures !HasSwitch(browser, EnableFileAPIDirectoriesAndSystem) ==> r == schemes
  {
    r := schemes;
    if HasSwitch(browser, EnableFileAPIDirectoriesAndSystem) {
      r := r + [FileScheme];
    }
  }

  /** AppRuntimeBrowserMainParts, as far as the client sees it: the extra parts added to it. */
  class BrowserMainParts {
    var addedParts: seq<nat>

    constructor ()
      ensures addedParts == []
    {
      addedParts := [];
    }

    method AddParts(parts: nat)
      modifies this
      ensures addedParts == old(addedParts) + [parts]
    {
      addedParts := addedParts + [parts];
    }
  }

  /** The switches the native-scroll step writes. */
  const NativeScrollSwitchNames: set<string> :=
    {EnableWebOSNativeScroll, EnableSmoothScrolling, EnableBlinkFeatures,
     EnablePreferCompositingToLCDText, CustomGestureScrollDelta}

  /** No two of the switches the client writes share a name. */
  lemma ManagedSwitchesDistinct()
    ensures NativeScrollSwitchNames !! {NoSandbox, V8SnapshotBlobPath, JavaScriptFlags}
    ensures NoSandbox != V8SnapshotBlobPath && NoSandbox != JavaScriptFlags && V8SnapshotBlobPath != JavaScriptFlags
    ensures ManagedSwitches == NativeScrollSwitchNames + {NoSandbox, V8SnapshotBlobPath, JavaScriptFlags}
  {
    assert |NoSandbox| == 10 && |V8SnapshotBlobPath| == 21 && |JavaScriptFlags| == 8;
    assert |EnableWebOSNativeScroll| == 26 && |EnableSmoothScrolling| == 23 && |EnableBlinkFeatures| == 21;
    assert |EnablePreferCompositingToLCDText| == 37 && |CustomGestureScrollDelta| == 62;
    assert EnableBlinkFeatures[1] != V8SnapshotBlobPath[1];
  }

  /** `a` and `b` agree on every switch outside `keys`. */
  ghost predicate SameOutside(a: Switches, b: Switches, keys: set<string>) {
    forall k :: k !in keys ==> (k in a <==> k in b) && (k in a ==> a[k] == b[k])
  }

  /** `a` and `b` agree on every switch in `keys`. */
  ghost predicate SameOn(a: Switches, b: Switches, keys: set<string>) {
    forall k :: k in keys ==> (k in a <==> k in b) && (k in a ==> a[k] == b[k])
  }

  /** What the native-scroll step guarantees about line `r` built from line `cmd`. */
  ghost predicate NativeScrollApplied(r: Switches, cmd: Switches, browser: Switches) {
    && EnableWebOSNativeScroll in r && r[EnableWebOSNativeScroll] == SwitchValue(cmd, EnableWebOSNativeScroll)
    && EnableSmoothScrolling in r && r[EnableSmoothScrolling] == SwitchValue(cmd, EnableSmoothScrolling)
    && EnablePreferCompositingToLCDText in r &&
       r[EnablePreferCompositingToLCDText] == SwitchValue(cmd, EnablePreferCompositingToLCDText)
    && EnableBlinkFeatures in r &&
       r[EnableBlinkFeatures] == "CSSOMSmoothScroll" +
         (if HasSwitch(cmd, EnableBlinkFeatures) then "," + cmd[EnableBlinkFeatures] else "")
    && CustomGestureScrollDelta in r &&
       r[CustomGestureScrollDelta] ==
         (if HasSwitch(browser, CustomGestureScrollDelta) then browser[CustomGestureScrollDelta] else "180")
  }

  lemma SameOutsideCompose(a: Switches, b: Switches, c: Switches, k1: set<string>, k2: set<string>)
    requires SameOutside(a, b, k1) && SameOutside(b, c, k2)
    ensures SameOutside(a, c, k1 + k2)
  {
  }

  lemma SameOnFromOutside(a: Switches, b: Switches, k: set<string>, j: set<string>)
    requires SameOutside(a, b, k) && j !! k
    ensures SameOn(a, b, j)
  {
  }

  lemma NativeScrollAppliedTransfer(r: Switches, a: Switches, b: Switches, browser: Switches)
    requires NativeScrollApplied(r, a, browser) && SameOn(a, b, NativeScrollSwitchNames)
    ensures NativeScrollApplied(r, b, browser)
  {
    assert EnableBlinkFeatures in NativeScrollSwitchNames;
  }

  /** A switch without a value is appended only if the line does not have it yet. */
  function AppendSwitchIfMissing(cmd: Switches, name: string): (r: Switches)
    ensures name in r && r[name] == SwitchValue(cmd, name)
    ensures SameOutside(r, cmd, {name})
  {
    if HasSwitch(cmd, name) then cmd else AppendSwitch(cmd, name)
  }

  lemma NativeScrollSwitchesDistinct()
    ensures EnableWebOSNativeScroll != EnableSmoothScrolling && EnableWebOSNativeScroll != EnableBlinkFeatures
    ensures EnableWebOSNativeScroll != EnablePreferCompositingToLCDText && EnableWebOSNativeScroll != CustomGestureScrollDelta
    ensures EnableSmoothScrolling != EnableBlinkFeatures && EnableSmoothScrolling != EnablePreferCompositingToLCDText
    ensures EnableSmoothScrolling != CustomGestureScrollDelta && EnableBlinkFeatures != EnablePreferCompositingToLCDText
    ensures EnableBlinkFeatures != CustomGestureScrollDelta && EnablePreferCompositingToLCDText != CustomGestureScrollDelta
  {
    assert |EnableWebOSNativeScroll| == 26 && |EnableSmoothScrolling| == 23 && |EnableBlinkFeatures| == 21;
    assert |EnablePreferCompositingToLCDText| == 37 && |CustomGestureScrollDelta| == 62;
  }

  /** std::to_string(kDefaultGestureScrollDistanceOnNativeScroll) is "180". */
  lemma DefaultGestureScrollText()
    ensures ToDecimal(DefaultGestureScrollDistance) == "180"
  {
    assert ToDecimal(1) == "1";
    assert ToDecimal(18) == ToDecimal(1) + "8";
    assert ToDecimal(180) == ToDecimal(18) + "0";
  }

  /**
   * The native-scroll step for a child with native scroll on: switches
   * already on the line stay as they are, CSSOMSmoothScroll goes in front
   * of the blink features already listed, and the gesture scroll delta is
   * the browser's, or else 180.  No other switch is touched.
   */
  function NativeScrollSwitches(cmd: Switches, browser: Switches): (r: Switches)
    ensures NativeScrollApplied(r, cmd, browser)
    ensures SameOutside(r, cmd, NativeScrollSwitchNames)
  {
    NativeScrollSwitchesDistinct();
    var r1 := AppendSwitchIfMissing(cmd, EnableWebOSNativeScroll);
    var r2 := AppendSwitchIfMissing(r1, EnableSmoothScrolling);
    var blinkFeatures := "CSSOMSmoothScroll" +
      (if HasSwitch(r2, EnableBlinkFeatures) then "," + SwitchValue(r2, EnableBlinkFeatures) else "");
    var r3 := AppendSwitchValue(r2, EnableBlinkFeatures, blinkFeatures);
    assert SameOutside(r3, r2, {EnableBlinkFeatures});
    var r4 := AppendSwitchIfMissing(r3, EnablePreferCompositingToLCDText);
    DefaultGestureScrollText();
    var delta := if HasSwitch(browser, CustomGestureScrollDelta) then SwitchValue(browser, CustomGestureScrollDelta)
                 else ToDecimal(DefaultGestureScrollDistance);
    var r5 := AppendSwitchValue(r4, CustomGestureScrollDelta, delta);
    assert SameOutside(r5, r4, {CustomGestureScrollDelta});
    r5
  }

  /**
   * The four steps of AppendExtraCommandLineSwitches together: what the
   * child's line holds after them, given what was recorded for the child.
   */
  lemma StepsCompose(cmd: Switches, browser: Switches, withSandbox: Switches, withSnapshot: Switches,
                     withFlags: Switches, r: Switches,
                     snapshot: Option<string>, flags: Option<string>, nativeOn: bool)
    requires withSandbox == AppendSwitch(cmd, NoSandbox)
    requires snapshot.Some? ==> V8SnapshotBlobPath in withSnapshot && withSnapshot[V8SnapshotBlobPath] == snapshot.value
    requires snapshot.None? ==> withSnapshot == withSandbox
    requires SameOutside(withSnapshot, withSandbox, {V8SnapshotBlobPath})
    requires flags.Some? ==>
               JavaScriptFlags in withFlags &&
               withFlags[JavaScriptFlags] == flags.value +
                 (if HasSwitch(withSnapshot, JavaScriptFlags) then " " + withSnapshot[JavaScriptFlags] else "")
    requires flags.None? ==> withFlags == withSnapshot
    requires SameOutside(withFlags, withSnapshot, {JavaScriptFlags})
    requires nativeOn ==> NativeScrollApplied(r, withFlags, browser)
    requires !nativeOn ==> r == withFlags
    requires SameOutside(r, withFlags, NativeScrollSwitchNames)
    ensures HasSwitch(r, NoSandbox)
    ensures SameOutside(r, cmd, ManagedSwitches)
    ensures snapshot.Some? ==> V8SnapshotBlobPath in r && r[V8SnapshotBlobPath] == snapshot.value
    ensures snapshot.None? ==> SameOn(r, cmd, {V8SnapshotBlobPath})
    ensures flags.Some? ==>
              JavaScriptFlags in r &&
              r[JavaScriptFlags] == flags.value +
                (if HasSwitch(cmd, JavaScriptFlags) then " " + cmd[JavaScriptFlags] else "")
    ensures flags.None? ==> SameOn(r, cmd, {JavaScriptFlags})
    ensures nativeOn ==> NativeScrollApplied(r, cmd, browser)
    ensures !nativeOn ==> SameOn(r, cmd, NativeScrollSwitchNames)
  {
    OwnSwitchesOutsideNativeScroll();
    assert SameOutside(withSandbox, cmd, {NoSandbox});
    StepsFrame(cmd, withSandbox, withSnapshot, withFlags, r);
    // The snapshot path: the later steps leave it alone.
    SameAt(r, withFlags, NativeScrollSwitchNames, V8SnapshotBlobPath);
    SameAt(withFlags, withSnapshot, {JavaScriptFlags}, V8SnapshotBlobPath);
    SameAt(withSandbox, cmd, {NoSandbox}, V8SnapshotBlobPath);
    // The JavaScript flags: the steps around them leave them alone.
    SameAt(r, withFlags, NativeScrollSwitchNames, JavaScriptFlags);
    SameAt(withSnapshot, withSandbox, {V8SnapshotBlobPath}, JavaScriptFlags);
    SameAt(withSandbox, cmd, {NoSandbox}, JavaScriptFlags);
    // No sandbox: set first and never touched again.
    SameAt(r, withFlags, NativeScrollSwitchNames, NoSandbox);
    SameAt(withFlags, withSnapshot, {JavaScriptFlags}, NoSandbox);
    SameAt(withSnapshot, withSandbox, {V8SnapshotBlobPath}, NoSandbox);
    if nativeOn {
      NativeScrollAppliedTransfer(r, withFlags, cmd, browser);
    }
  }

  /** The switches the client sets itself are not native-scroll switches, and differ from each other. */
  lemma OwnSwitchesOutsideNativeScroll()
    ensures NoSandbox !in NativeScrollSwitchNames && V8SnapshotBlobPath !in NativeScrollSwitchNames
    ensures JavaScriptFlags !in NativeScrollSwitchNames
    ensures NoSandbox != V8SnapshotBlobPath && NoSandbox != JavaScriptFlags && V8SnapshotBlobPath != JavaScriptFlags
  {
    ManagedSwitchesDistinct();
  }

  /** A switch outside the keys a step writes is as it was. */
  lemma SameAt(a: Switches, b: Switches, keys: set<string>, k: string)
    requires SameOutside(a, b, keys) && k !in keys
    ensures (k in a <==> k in b) && (k in a ==> a[k] == b[k])
  {
  }

  /**
   * The four steps write only their own switches, so together they leave
   * every switch the client does not manage as it was, and the three steps
   * before native scroll leave the native-scroll switches as they were.
   */
  lemma StepsFrame(cmd: Switches, withSandbox: Switches, withSnapshot: Switches, withFlags: Switches, r: Switches)
    requires SameOutside(withSandbox, cmd, {NoSandbox})
    requires SameOutside(withSnapshot, withSandbox, {V8SnapshotBlobPath})
    requires SameOutside(withFlags, withSnapshot, {JavaScriptFlags})
    requires SameOutside(r, withFlags, NativeScrollSwitchNames)
    ensures SameOutside(r, cmd, ManagedSwitches)
    ensures SameOn(withFlags, cmd, NativeScrollSwitchNames)
  {
    ManagedSwitchesDistinct();
    forall k | k !in ManagedSwitches
      ensures (k in r <==> k in cmd) && (k in r ==> r[k] == cmd[k])
    {
      assert k !in NativeScrollSwitchNames && k != NoSandbox && k != V8SnapshotBlobPath && k != JavaScriptFlags;
    }
    forall k | k in NativeScrollSwitchNames
      ensures (k in withFlags <==> k in cmd) && (k in withFlags ==> withFlags[k] == cmd[k])
    {
      assert k != NoSandbox && k != V8SnapshotBlobPath && k != JavaScriptFlags;
    }
  }

  class ContentBrowserClient {
    /** browser_extra_parts_, None for nullptr. */
    var extraParts: Option<nat>
    /** main_parts_ (GetMainParts), null until CreateBrowserMainParts. */
    var mainParts: BrowserMainParts?
    var doNotTrack: bool
    var pluginLoaded: bool
    /** v8_snapshot_pathes_ */
    var snapshotPaths: map<int, string>
    /** v8_extra_flags_ */
    var extraFlags: map<int, string>
    /** use_native_scroll_map_ */
    var nativeScroll: map<int, bool>

    constructor ()
      ensures extraParts == None && mainParts == null
      ensures !doNotTrack && !pluginLoaded
      ensures snapshotPaths == map[] && extraFlags == map[] && nativeScroll == map[]
    {
      extraParts := None;
      mainParts := null;
      doNotTrack := false;
      pluginLoaded := false;
      snapshotPaths := map[];
      extraFlags := map[];
      nativeScroll := map[];
    }

    method SetBrowserExtraParts(parts: Option<nat>)
      modifies this`extraParts
      ensures extraParts == parts
    {
      extraParts := parts;
    }

    /** CreateBrowserMainParts: new main parts, holding the extra parts if there are any, are kept and returned. */
    method CreateBrowserMainParts() returns (parts: BrowserMainParts)
      modifies this`mainParts
      ensures fresh(parts) && mainParts == parts
      ensures parts.addedParts == (if extraParts.Some? then [extraParts.value] else [])
    {
      parts := new BrowserMainParts();
      mainParts := parts;
      if extraParts.Some? {
        parts.AddParts(extraParts.value);
      }
    }

    method SetDoNotTrack(dnt: bool)
      modifies this`doNotTrack
      ensures doNotTrack == dnt
    {
      doNotTrack := dnt;
    }

    method SetPluginLoaded(loaded: bool)
      modifies this`pluginLoaded
      ensures pluginLoaded == loaded
    {
      pluginLoaded := loaded;
    }

    /** SetV8SnapshotPath: map insert, so a path already recorded for the child is kept. */
    method SetV8SnapshotPath(childId: int, path: string)
      modifies this`snapshotPaths
      ensures childId in old(snapshotPaths) ==> snapshotPaths == old(snapshotPaths)
      ensures childId !in old(snapshotPaths) ==> snapshotPaths == old(snapshotPaths)[childId := path]
    {
      if childId !in snapshotPaths {
        snapshotPaths := snapshotPaths[childId := path];
      }
    }

    /** SetV8ExtraFlags: map insert, so flags already recorded for the child are kept. */
    method SetV8ExtraFlags(childId: int, flags: string)
      modifies this`extraFlags
      ensures childId in old(extraFlags) ==> extraFlags == old(extraFlags)
      ensures childId !in old(extraFlags) ==> extraFlags == old(extraFlags)[childId := flags]
    {
      if childId !in extraFlags {
        extraFlags := extraFlags[childId := flags];
      }
    }

    /** SetUseNativeScroll: map insert, so the first setting for the child is kept. */
    method SetUseNativeScroll(childId: int, useNativeScroll: bool)
      modifies this`nativeScroll
      ensures childId in old(nativeScroll) ==> nativeScroll == old(nativeScroll)
      ensures childId !in old(nativeScroll) ==> nativeScroll == old(nativeScroll)[childId := useNativeScroll]
    {
      if childId !in nativeScroll {
        nativeScroll := nativeScroll[childId := useNativeScroll];
      }
    }

    /**
     * AppendExtraCommandLineSwitches: the child's command line gets
     * no-sandbox, then whatever was recorded for this child: its snapshot
     * path; its JS flags, followed by a space and the flags already on the
     * line; and, if native scroll is on, the native-scroll switches (those
     * already present are kept), the CSSOMSmoothScroll blink feature in
     * front of any features already listed, and the gesture scroll delta
     * of the browser process or else 180.  The child's entries are consumed;
     * other children's stay.  `browser` is the browser's own command line.
     */
    method AppendExtraCommandLineSwitches(cmd: Switches, childId: int, browser: Switches) returns (r: Switches)
      modifies this`snapshotPaths, this`extraFlags, this`nativeScroll
      ensures HasSwitch(r, NoSandbox)
      ensures SameOutside(r, cmd, ManagedSwitches)
      // the snapshot path
      ensures childId in old(snapshotPaths) ==> V8SnapshotBlobPath in r && r[V8SnapshotBlobPath] == old(snapshotPaths)[childId]
      ensures childId !in old(snapshotPaths) ==> SameOn(r, cmd, {V8SnapshotBlobPath})
      ensures snapshotPaths == old(snapshotPaths) - {childId}
      // the JS flags
      ensures childId in old(extraFlags) ==>
                JavaScriptFlags in r &&
                r[JavaScriptFlags] == old(extraFlags)[childId] +
                  (if HasSwitch(cmd, JavaScriptFlags) then " " + cmd[JavaScriptFlags] else "")
      ensures childId !in old(extraFlags) ==> SameOn(r, cmd, {JavaScriptFlags})
      ensures extraFlags == old(extraFlags) - {childId}
      // native scroll
      ensures childId in old(nativeScroll) && old(nativeScroll)[childId] ==> NativeScrollApplied(r, cmd, browser)
      ensures !(childId in old(nativeScroll) && old(nativeScroll)[childId]) ==> SameOn(r, cmd, NativeScrollSwitchNames)
      ensures nativeScroll == old(nativeScroll) - {childId}
    {
      ghost var snapshot := if childId in snapshotPaths then Some(snapshotPaths[childId]) else None;
      ghost var flags := if childId in extraFlags then Some(extraFlags[childId]) else None;
      ghost var nativeOn := childId in nativeScroll && nativeScroll[childId];
      var withSandbox := AppendSwitch(cmd, NoSandbox);
      var withSnapshot := AppendSnapshotPath(withSandbox, childId);
      var withFlags := AppendJsFlags(withSnapshot, childId);
      r := AppendNativeScroll(withFlags, childId, browser);
      StepsCompose(cmd, browser, withSandbox, withSnapshot, withFlags, r, snapshot, flags, nativeOn);
    }

    /** The snapshot-path step: a recorded path becomes the switch's value and is consumed. */
    method AppendSnapshotPath(cmd: Switches, childId: int) returns (r: Switches)
      modifies this`snapshotPaths
      ensures childId in old(snapshotPaths) ==> V8SnapshotBlobPath in r && r[V8SnapshotBlobPath] == old(snapshotPaths)[childId]
      ensures childId !in old(snapshotPaths) ==> r == cmd
      ensures SameOutside(r, cmd, {V8SnapshotBlobPath})
      ensures snapshotPaths == old(snapshotPaths) - {childId}
    {
      r := cmd;
      if childId in snapshotPaths {
        r := AppendSwitchValue(r, V8SnapshotBlobPath, snapshotPaths[childId]);
        snapshotPaths := snapshotPaths - {childId};
      }
    }

    /** The JS-flags step: recorded flags, then a space and the flags already there, and consumed. */
    method AppendJsFlags(cmd: Switches, childId: int) returns (r: Switches)
      modifies this`extraFlags
      ensures childId in old(extraFlags) ==>
                JavaScriptFlags in r &&
                r[JavaScriptFlags] == old(extraFlags)[childId] +
                  (if HasSwitch(cmd, JavaScriptFlags) then " " + cmd[JavaScriptFlags] else "")
      ensures childId !in old(extraFlags) ==> r == cmd
      ensures SameOutside(r, cmd, {JavaScriptFlags})
      ensures extraFlags == old(extraFlags) - {childId}
    {
      r := cmd;
      if childId in extraFlags {
        var jsFlags := extraFlags[childId];
        if HasSwitch(r, JavaScriptFlags) {
          jsFlags := jsFlags + " " + SwitchValue(r, JavaScriptFlags);
        }
        r := AppendSwitchValue(r, JavaScriptFlags, jsFlags);
        extraFlags := extraFlags - {childId};
      }
    }

    /** The native-scroll step: applied only if recorded as on; the entry is consumed either way. */
    method AppendNativeScroll(cmd: Switches, childId: int, browser: Switches) returns (r: Switches)
      modifies this`nativeScroll
      ensures childId in old(nativeScroll) && old(nativeScroll)[childId] ==> r == NativeScrollSwitches(cmd, browser)
      ensures !(childId in old(nativeScroll) && old(nativeScroll)[childId]) ==> r == cmd
      ensures childId in old(nativeScroll) && old(nativeScroll)[childId] ==> NativeScrollApplied(r, cmd, browser)
      ensures SameOutside(r, cmd, NativeScrollSwitchNames)
      ensures nativeScroll == old(nativeScroll) - {childId}
    {
      r := cmd;
      if childId in nativeScroll {
        var useNativeScroll := nativeScroll[childId];
        if useNativeScroll {
          r := NativeScrollSwitches(r, browser);
        }
        nativeScroll := nativeScroll - {childId};
      }
    }
  }

  /** A child's recorded settings are used for its first command line only. */
  method SettingsConsumedOnce(client: ContentBrowserClient, childId: int, cmd: Switches, browser: Switches)
    modifies client
  {
    client.SetV8ExtraFlags(childId, "--expose-gc");
    var first := client.AppendExtraCommandLineSwitches(cmd, childId, browser);
    assert JavaScriptFlags in first;
    var second := client.AppendExtraCommandLineSwitches(map[], childId, browser);
    assert JavaScriptFlags !in second;
  }
}
