/**
 * app_runtime::AppRuntimeBrowserContext, as far as the extra WebSocket
 * headers and the storage path go: a network delegate layered over the
 * main request context's one, created on first use, that adds the stored
 * headers to WebSocket requests only.
 *
 * Request headers are a map from header name to value, as set by
 * HttpRequestHeaders::SetHeader (a later value replaces an earlier one).
 */
module BrowserContext {
  import opened CommandLine

  type Headers = map<string, string>

  const UserDataDir: string := "user-data-dir"

  /** GURL::SchemeIsWSOrWSS on the (canonical, lower-case) scheme. */
  predicate IsWebSocketScheme(scheme: string) {
    scheme == "ws" || scheme == "wss"
  }

  /** AppRuntimeContextNetworkDelegate */
  class NetworkDelegate {
    /** extra_websocket_headers_ */
    var headers: Headers

    constructor ()
      ensures headers == map[]
    {
      headers := map[];
    }

    /** AppendExtraWebSocketHeader: map insert, so the first value for a key is kept. */
    method AppendExtraWebSocketHeader(key: string, value: string)
      modifies this
      ensures key in old(headers) ==> headers == old(headers)
      ensures key !in old(headers) ==> headers == old(headers)[key := value]
    {
      if key !in headers {
        headers := headers[key := value];
      }
    }

    /**
     * OnBeforeSendHeadersInternal: a ws or wss request gets every stored
     * header, replacing a value it already had; any other request is left
     * as it is.
     */
    method OnBeforeSendHeaders(scheme: string, request: Headers) returns (r: Headers)
      ensures IsWebSocketScheme(scheme) ==> r == request + headers
      ensures !IsWebSocketScheme(scheme) ==> r == request
    {
      r := request;
      if IsWebSocketScheme(scheme) {
        var remaining := headers.Keys;
        while remaining != {}
          invariant remaining <= headers.Keys
          invariant r == request + Restrict(headers, headers.Keys - remaining)
          decreases remaining
        {
          var key :| key in remaining;
          RestrictAdd(request, headers, headers.Keys - remaining, key);
          assert headers.Keys - (remaining - {key}) == (headers.Keys - remaining) + {key};
          r := r[key := headers[key]];
          remaining := remaining - {key};
        }
        assert headers.Keys - remaining == headers.Keys;
        RestrictAll(headers);
      }
    }
  }

  /** The headers whose names are in `keys`. */
  function Restrict(headers: Headers, keys: set<string>): (m: Headers)
    requires keys <= headers.Keys
    ensures m.Keys == keys
    ensures forall k :: k in m ==> m[k] == headers[k]
  {
    map k | k in keys :: headers[k]
  }

  /** Setting one more stored header extends the overlay by that header. */
  lemma RestrictAdd(request: Headers, headers: Headers, done: set<string>, key: string)
    requires done <= headers.Keys && key in headers
    ensures (request + Restrict(headers, done))[key := headers[key]] == request + Restrict(headers, done + {key})
  {
    var lhs := (request + Restrict(headers, done))[key := headers[key]];
    var rhs := request + Restrict(headers, done + {key});
    assert lhs.Keys == rhs.Keys;
    forall k | k in lhs ensures lhs[k] == rhs[k] {
    }
  }

  lemma RestrictAll(headers: Headers)
    ensures Restrict(headers, headers.Keys) == headers
  {
  }

  /**
   * FilePath::Append for a relative component: the component alone after
   * an empty path or ".", else the two joined by one '/'.
   */
  function JoinPath(dir: string, component: string): (r: string)
    ensures |r| >= |component| && r[|r| - |component|..] == component
    ensures dir != "" && dir != "." ==> |r| >= |dir| && r[..|dir|] == dir
  {
    if dir == "" || dir == "." then component
    else if dir[|dir| - 1] == '/' then dir + component
    else dir + "/" + component
  }

  class AppRuntimeBrowserContext {
    /** The adapter's storage name. */
    const storageName: string
    /** network_delegate_, created on the first extra header. */
    var delegate: NetworkDelegate?
    /** How many times a delegate was installed into the main request context. */
    var installs: nat

    constructor (name: string)
      ensures storageName == name && delegate == null && installs == 0
    {
      storageName := name;
      delegate := null;
      installs := 0;
    }

    /**
     * GetPath: with a user-data-dir switch on the browser's command line,
     * that directory joined with the storage name; otherwise the empty path.
     */
    function GetPath(browser: Switches): (r: string)
      ensures HasSwitch(browser, UserDataDir) ==>
                |r| >= |storageName| && r[|r| - |storageName|..] == storageName
      ensures HasSwitch(browser, UserDataDir) && browser[UserDataDir] != "" && browser[UserDataDir] != "." ==>
                |r| >= |browser[UserDataDir]| && r[..|browser[UserDataDir]|] == browser[UserDataDir]
      ensures !HasSwitch(browser, UserDataDir) ==> r == ""
    {
      if HasSwitch(browser, UserDataDir) then JoinPath(SwitchValue(browser, UserDataDir), storageName)
      else ""
    }

    /**
     * AppendExtraWebSocketHeaderIO: the first call creates the layered
     * delegate and installs it; every call then inserts the header into it.
     */
    method AppendExtraWebSocketHeaderIO(key: string, value: string)
      modifies this, delegate
      ensures delegate != null
      ensures old(delegate) != null ==> delegate == old(delegate) && installs == old(installs)
      ensures old(delegate) == null ==> fresh(delegate) && installs == old(installs) + 1
      ensures old(delegate) != null && key in old(delegate.headers) ==> delegate.headers == old(delegate.headers)
      ensures old(delegate) != null && key !in old(delegate.headers) ==>
                delegate.headers == old(delegate.headers)[key := value]
      ensures old(delegate) == null ==> delegate.headers == map[key := value]
    {
      if delegate == null {
        delegate := new NetworkDelegate();
        installs := installs + 1;
      }
      delegate.AppendExtraWebSocketHeader(key, value);
    }
  }
}
