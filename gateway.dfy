/** The HTTP front of the proxy: the status route, the authentication gate,
    the subscribe route and the plugin mounts, in the order they are
    registered with the router, and the callback each plugin is handed. */
module Gateway {
  import opened JsValues
  import opened Subscription
  import opened Dispatch
  import opened Plugins

  /** What the router sees of a request: its method, its path as sent
      (without the query string and not percent-decoded) and its `stnp-auth`
      header, if it has one. A header sent more than once arrives as one
      string, the values joined with ", ". */
  datatype Inbound = Inbound(verb: string, path: string, auth: Option<string>)

  /** The header as the handler reads it: `headers['stnp-auth']` is a string
      or `undefined`. */
  function HeaderValue(auth: Option<string>): JsValue
  {
    if auth.Some? then Str(auth.value) else Absent
  }

  /** The gate lets a request through unless its header is falsy or not
      strictly equal to the configured `authCode`. */
  predicate Authorized(auth: Option<string>, authCode: JsValue)
  {
    !(!Truthy(HeaderValue(auth)) || HeaderValue(auth) != authCode)
  }

  /** A request passes the gate exactly when it carries a non-empty header
      and the configured code is that very string. */
  lemma AuthorizedIff(auth: Option<string>, authCode: JsValue)
    ensures Authorized(auth, authCode) <==> auth.Some? && auth.value != "" && authCode == Str(auth.value)
  {
  }

  /** Strict equality never equates a header, which is a string, with a code
      that is missing or was written into the configuration as a number: no
      request passes the gate then. */
  lemma NonStringCodeLocksOut(auth: Option<string>, authCode: JsValue)
    requires !authCode.Str?
    ensures !Authorized(auth, authCode)
  {
  }

  /** `app.get` routes answer `GET` and also `HEAD`. */
  predicate GetLike(verb: string)
  {
    verb == "GET" || verb == "HEAD"
  }

  /** The paths the root route `/` matches. */
  predicate IsRoot(path: string)
  {
    path == "" || path == "/"
  }

  const SubscribePrefix: string := "/subscribe/"

  /** The `:host` parameter of a path the route `/subscribe/:host` matches:
      one non-empty segment after the prefix, with at most one '/' after it. */
  function SubscribeHost(path: string): (host: Option<string>)
    ensures host.Some? ==> host.value != [] && '/' !in host.value
    ensures host.Some? ==> path == SubscribePrefix + host.value || path == SubscribePrefix + host.value + "/"
  {
    if |path| > |SubscribePrefix| && path[..|SubscribePrefix|] == SubscribePrefix then
      var rest := path[|SubscribePrefix|..];
      assert path == SubscribePrefix + rest;
      var h := if rest[|rest| - 1] == '/' then rest[..|rest| - 1] else rest;
      assert rest == h || rest == h + "/";
      if h != [] && '/' !in h then Some(h) else None
    else None
  }

  /** Every non-empty segment without '/' is recognised as the host, with or
      without a trailing '/'. */
  lemma SubscribePathRecognized(host: string)
    requires host != [] && '/' !in host
    ensures SubscribeHost(SubscribePrefix + host) == Some(host)
    ensures SubscribeHost(SubscribePrefix + host + "/") == Some(host)
  {
    var p := SubscribePrefix + host;
    assert p[..|SubscribePrefix|] == SubscribePrefix && p[|SubscribePrefix|..] == host;
    assert p[|p| - 1] == host[|host| - 1];
    var q := p + "/";
    assert q[..|SubscribePrefix|] == SubscribePrefix && q[|SubscribePrefix|..] == host + "/";
    assert (host + "/")[..|host|] == host;
  }

  /** The handler that answers a request, in the order the router tries them. */
  datatype Route =
    | Status                        // `GET /`
    | AuthFailure                   // the gate
    | SubscribeRoute(host: string)  // `GET /subscribe/:host`
    | PluginRoute(index: nat)       // the `index`-th mounted plugin
    | AutoOptions                   // the router's own `OPTIONS` answer
    | Unrouted                      // nothing matched

  /** The `app.get` routes whose path matches: `/` or `/subscribe/:host`. An
      `OPTIONS` request no handler takes is answered with their methods. */
  predicate GetRoutePath(path: string)
  {
    IsRoot(path) || SubscribeHost(path).Some?
  }

  /** The route a request takes. The root route is registered before the
      gate, so it is answered whatever the header says. An `OPTIONS` request
      that passes the gate and reaches no plugin is answered by the router
      itself when the path matches a `GET` route. */
  function RouteOf(req: Inbound, authCode: JsValue, prefixes: seq<string>): (r: Route)
    ensures r == Status <==> GetLike(req.verb) && IsRoot(req.path)
    ensures r == AuthFailure <==> !(GetLike(req.verb) && IsRoot(req.path)) && !Authorized(req.auth, authCode)
    ensures r.SubscribeRoute? || r.PluginRoute? ==> Authorized(req.auth, authCode)
    ensures r.SubscribeRoute? ==> GetLike(req.verb) && SubscribeHost(req.path) == Some(r.host)
    ensures r.PluginRoute? ==> r.index < |prefixes| && Under(prefixes[r.index], req.path)
    ensures r.PluginRoute? ==> forall j :: 0 <= j < r.index ==> !Under(prefixes[j], req.path)
    ensures r == AutoOptions ==> req.verb == "OPTIONS" && Authorized(req.auth, authCode) && GetRoutePath(req.path)
    ensures r == AutoOptions || r == Unrouted ==> forall j :: 0 <= j < |prefixes| ==> !Under(prefixes[j], req.path)
    ensures r == Unrouted ==> !(req.verb == "OPTIONS" && GetRoutePath(req.path))
  {
    if GetLike(req.verb) && IsRoot(req.path) then Status
    else if !Authorized(req.auth, authCode) then AuthFailure
    else if GetLike(req.verb) && SubscribeHost(req.path).Some? then SubscribeRoute(SubscribeHost(req.path).value)
    else
      match FirstMount(prefixes, req.path)
      case Some(k) => PluginRoute(k)
      case None => if req.verb == "OPTIONS" && GetRoutePath(req.path) then AutoOptions else Unrouted
  }

  /** What the handler writes. A plugin's handler writes its own response,
      and a request nothing matched gets the router's 404. The router's
      `OPTIONS` answer carries the methods both as its `Allow` header and as
      its body. */
  datatype Response =
    | Json(status: nat, key: string, message: string)
    | Empty(status: nat)
    | Delegated(plugin: nat)
    | Allow(status: nat, methods: string)
    | NotFound

  function Respond(route: Route): Response
  {
    match route
    case Status => Json(200, "status", "SmartThings Node Proxy running")
    case AuthFailure => Json(500, "error", "Authentication error")
    case SubscribeRoute(_) => Empty(200)
    case PluginRoute(k) => Delegated(k)
    case AutoOptions => Allow(200, "GET,HEAD")
    case Unrouted => NotFound
  }

  /** The fixed answers: the status route, the gate's refusal, and an empty
      success for every subscription, whether it added an entry or not. */
  lemma Answers(req: Inbound, authCode: JsValue, prefixes: seq<string>)
    ensures GetLike(req.verb) && IsRoot(req.path) ==>
              Respond(RouteOf(req, authCode, prefixes)) == Json(200, "status", "SmartThings Node Proxy running")
    ensures !(GetLike(req.verb) && IsRoot(req.path)) && !Authorized(req.auth, authCode) ==>
              Respond(RouteOf(req, authCode, prefixes)) == Json(500, "error", "Authentication error")
    ensures RouteOf(req, authCode, prefixes).SubscribeRoute? ==> Respond(RouteOf(req, authCode, prefixes)) == Empty(200)
  {
  }

  /** An authorized `GET` or `HEAD` of `/subscribe/<host>` reaches the
      subscribe route with that host, whatever plugins are mounted. */
  lemma SubscribeReached(req: Inbound, authCode: JsValue, prefixes: seq<string>, host: string)
    requires GetLike(req.verb) && Authorized(req.auth, authCode)
    requires host != [] && '/' !in host
    requires req.path == SubscribePrefix + host || req.path == SubscribePrefix + host + "/"
    ensures RouteOf(req, authCode, prefixes) == SubscribeRoute(host)
  {
    SubscribePathRecognized(host);
  }

  /** An authorized `OPTIONS` request to `/` or to `/subscribe/<host>` is
      answered 200 with the methods of the `GET` route there, whatever
      plugins are mounted. */
  lemma OptionsAnswered(req: Inbound, authCode: JsValue, mounts: seq<Mount>)
    requires req.verb == "OPTIONS" && Authorized(req.auth, authCode)
    requires IsRoot(req.path) || SubscribeHost(req.path).Some?
    ensures Respond(RouteOf(req, authCode, Prefixes(mounts))) == Allow(200, "GET,HEAD")
  {
    if SubscribeHost(req.path).Some? {
      SubscribePathOutsidePlugins(req.path);
    }
    NoMountOutsidePlugins(mounts, req.path);
  }

  /** A subscribe path begins `/s`, not `/p`. */
  lemma SubscribePathOutsidePlugins(path: string)
    requires SubscribeHost(path).Some?
    ensures |path| >= 2 && path[1] == 's'
  {
    var host := SubscribeHost(path).value;
    assert path[..|SubscribePrefix|] == SubscribePrefix;
  }

  /** No plugin is reached by a path whose second character is not the 'p'
      of `/plugins`. */
  lemma NoMountOutsidePlugins(mounts: seq<Mount>, path: string)
    requires |path| < 2 || path[1] != 'p'
    ensures FirstMount(Prefixes(mounts), path) == None
  {
    forall i | 0 <= i < |mounts|
      ensures !Under(Prefixes(mounts)[i], path)
    {
      PrefixesAt(mounts, i);
      OutsidePlugins(mounts[i].Id(), path);
    }
  }

  /** A path under the `k`-th mount path and under none before it is routed
      to the `k`-th mount. */
  lemma FirstMountAt(prefixes: seq<string>, k: nat, path: string)
    requires k < |prefixes| && Under(prefixes[k], path)
    requires forall j :: 0 <= j < k ==> !Under(prefixes[j], path)
    ensures FirstMount(prefixes, path) == Some(k)
  {
  }

  /** Among mount paths `/plugins/<id>` with distinct non-empty ids free of
      '/', an authorized request to a path below one of them reaches it. */
  lemma PrefixReached(req: Inbound, authCode: JsValue, ids: seq<string>, prefixes: seq<string>, k: nat, rest: string)
    requires |prefixes| == |ids| && k < |ids| && Authorized(req.auth, authCode)
    requires forall i :: 0 <= i < |ids| ==> prefixes[i] == PrefixOf(ids[i])
    requires forall i :: 0 <= i < |ids| ==> '/' !in ids[i]
    requires forall i :: 0 <= i <= k ==> ids[i] != []
    requires forall i :: 0 <= i < k ==> ids[i] != ids[k]
    requires req.path == PrefixOf(ids[k]) + "/" + rest
    ensures RouteOf(req, authCode, prefixes) == PluginRoute(k)
  {
    assert req.path[1] == 'p';
    UnderOwnPrefix(ids[k], rest);
    forall j | 0 <= j < k
      ensures !Under(prefixes[j], req.path)
    {
      if Under(prefixes[j], req.path) {
        MountsDisjoint(ids[j], ids[k], req.path);
      }
    }
    FirstMountAt(prefixes, k, req.path);
  }

  /** The mount names of a table. */
  function Ids(mounts: seq<Mount>): (ids: seq<string>)
    ensures |ids| == |mounts|
    ensures forall i :: 0 <= i < |mounts| ==> ids[i] == mounts[i].Id()
  {
    if mounts == [] then [] else Ids(mounts[..|mounts| - 1]) + [mounts[|mounts| - 1].Id()]
  }

  /** An authorized request to a path below a plugin's mount point reaches
      that plugin, when its name and the names before it are non-empty and
      no earlier plugin has its name. */
  lemma PluginReached(req: Inbound, authCode: JsValue, mounts: seq<Mount>, k: nat, rest: string)
    requires k < |mounts| && Authorized(req.auth, authCode)
    requires forall i :: 0 <= i <= k ==> mounts[i].Id() != []
    requires forall i :: 0 <= i < k ==> mounts[i].Id() != mounts[k].Id()
    requires req.path == mounts[k].Prefix() + "/" + rest
    ensures RouteOf(req, authCode, Prefixes(mounts)) == PluginRoute(k)
  {
    var ids, prefixes := Ids(mounts), Prefixes(mounts);
    IdsPrefixes(mounts);
    assert mounts[k].Prefix() == PrefixOf(ids[k]);
    assert forall i :: 0 <= i <= k ==> ids[i] != [];
    assert forall i :: 0 <= i < k ==> ids[i] != ids[k];
    PrefixReached(req, authCode, ids, prefixes, k, rest);
  }

  /** The mount paths of a table are `/plugins/` and its names, which hold
      no '/'. */
  lemma IdsPrefixes(mounts: seq<Mount>)
    ensures forall i :: 0 <= i < |mounts| ==> Prefixes(mounts)[i] == PrefixOf(Ids(mounts)[i]) && '/' !in Ids(mounts)[i]
  {
    forall i | 0 <= i < |mounts|
      ensures Prefixes(mounts)[i] == PrefixOf(Ids(mounts)[i]) && '/' !in Ids(mounts)[i]
    {
      PrefixesAt(mounts, i);
      NameHasNoSlash(mounts[i].file);
    }
  }

  /** The proxy: the configuration it was started with, the plugins it
      mounted at startup, and the subscription registry. */
  class Server {
    const authCode: JsValue
    const mounts: seq<Mount>
    const registry: Registry

    /** Startup: read the configuration and mount every declared plugin. */
    constructor (authCode: JsValue, notify: Option<seq<Endpoint>>, plugins: Option<seq<string>>)
      ensures this.authCode == authCode && mounts == MountTable(plugins)
      ensures fresh(registry) && registry.notify == notify && registry.saved == []
    {
      this.authCode := authCode;
      var table := MountAll(plugins);
      mounts := table;
      registry := new Registry(notify);
    }

    /** One request: the route it takes, and the answer. Only the subscribe
        route touches the registry, as `Register` does. */
    method Handle(req: Inbound) returns (resp: Response)
      modifies registry
      ensures resp == Respond(RouteOf(req, authCode, Prefixes(mounts)))
      ensures RouteOf(req, authCode, Prefixes(mounts)).SubscribeRoute? ==>
                var host := RouteOf(req, authCode, Prefixes(mounts)).host;
                registry.notify == (if old(registry.notify).Some? then Some(Subscribe(old(registry.notify).value, host)) else None) &&
                registry.saved == if HasAddress(old(registry.Endpoints()), HostParts(host).0) then old(registry.saved)
                                  else old(registry.saved) + [registry.notify]
      ensures !RouteOf(req, authCode, Prefixes(mounts)).SubscribeRoute? ==> unchanged(registry)
    {
      var route := RouteOf(req, authCode, Prefixes(mounts));
      if route.SubscribeRoute? {
        registry.Register(route.host);
      }
      resp := Respond(route);
    }

    /** The callback the `k`-th plugin was handed: `notify(plugin, data)`
        under that plugin's name, over the registry's current list. */
    method Emit(k: nat, data: string) returns (calls: seq<Request>)
      requires k < |mounts|
      ensures calls == Requests(mounts[k].Id(), data, registry.Endpoints())
    {
      calls := Notify(mounts[k].Id(), data, registry.Endpoints());
    }
  }

  /** A hub that subscribes with `address:port` on an empty list is called
      back, once, at `http://address:port/notify` with the plugin's headers
      and the payload. */
  lemma SubscribeThenNotify(address: string, port: string, plugin: string, data: string)
    requires ':' !in address && ':' !in port
    requires address != "" && port != ""
    ensures Requests(plugin, data, Subscribe([], address + ":" + port)) ==
            [Request("NOTIFY", 200, "http://" + address + ":" + port + "/notify", NotifyHeaders(plugin), data)]
  {
    var token := address + ":" + port;
    HostRoundTrip(address, port);
    assert !HasAddress([], address);
    assert Subscribe([], token) == [EndpointOf(token)];
    SubscribedTokenUrl(address, port);
    RequestsSingle(plugin, data, EndpointOf(token));
    assert "http://" + token + "/notify" == "http://" + address + ":" + port + "/notify";
  }

  /** A port of "0" taken from a subscription token is a non-empty string and
      is called; only a numeric 0 written into the configuration is passed
      over. */
  lemma ZeroPorts(address: string)
    requires address != ""
    ensures !Skipped(Endpoint(Str(address), Str("0")))
    ensures Skipped(Endpoint(Str(address), Num(0)))
  {
  }
}
