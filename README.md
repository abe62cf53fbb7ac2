# SmartThings Node Proxy: the gateway's decision logic in Dafny

The SmartThings Node Proxy is a small Express server. A SmartThings hub
subscribes to it. Plugins run on it and post notifications, which the proxy
forwards to every subscribed hub. This project models the server's own logic
and proves properties of it:

- **Subscription registry** (`subscription.dfy`). The `/subscribe/:host`
  handler splits the host token on `":"`. It looks for an entry with the same
  address and appends `{address, port}` only when none exists. `Registry` is
  a class. It holds the configuration's `notify` key and the values handed
  to `nconf.save`.
- **Notification dispatch** (`dispatch.dfy`). `notify(plugin, data)` walks
  the list in order. It passes over entries whose address or port is unusable
  and builds one `NOTIFY` request description per remaining entry. These are
  the URL, the three headers and the body.
- **Plugin mounts** (`plugins.dfy`). Each declared file is mounted at
  `/plugins/<name>`. The name is Node's POSIX `path.parse(file).name`. The
  model also covers how the router picks the first mount a path lies under.
- **Gate and routing order** (`gateway.dfy`). Requests are tried in this
  order: the status route `GET /`, the `stnp-auth` gate, `GET
  /subscribe/:host`, then the plugin mounts. Last comes the router's own
  answer to an `OPTIONS` request for a path that only a `GET` route matches.
  `Server` is a class. It holds the startup configuration, the mount table
  and the registry, and handles one request at a time.
- **JavaScript values** (`js_values.dfy`, `strings.dfy`). A property value is
  `Absent | Str | Num`. The model includes JavaScript truthiness, how a
  template literal renders a value, and `split`/`join` on a one-character
  separator.

Configuration values, requests and outbound calls are plain Dafny values.
Nothing is sent, read from disk or logged.

Three behaviours of the code are easy to get wrong. The model follows the code
in each:

- `GET /` is registered before the authentication middleware, so it is
  answered without any `stnp-auth` header (`RouteOf`, `Answers`). Not every
  request has to pass the gate.
- A subscription token `10.0.0.2:0` stores the port as the string `"0"`.
  That string is truthy and not the number `0`, so the entry is called back.
  Only a numeric `0` written into the configuration file is passed over
  (`ZeroPorts`, `SkippedIffFalsy`). A `:0` token does not disable an entry.
- When the `notify` key is absent, the handler pushes onto a fresh local
  array. It never calls `nconf.set`, so the new entry is not kept in memory,
  although `nconf.save` is still called (`Registry.Register` with
  `notify == None`). When the key is present, the model assumes, as nconf
  does, that `get` returns the stored array itself, so `push` changes the
  store.

## Model

| member | source | states |
|---|---|---|
| JsValues.ParseNatDigits | smartthings-nodeproxy/server.js:136 | reading back the decimal digits of a natural number gives that number |
| JsValues.RenderNumberRoundTrip | smartthings-nodeproxy/server.js:136 | the text a template literal makes of an integer port reads back as that integer, so numeric ports appear in the URL unchanged |
| Strings.Split | smartthings-nodeproxy/server.js:63 | `split` always yields at least one piece, and more than one exactly when the separator occurs |
| Strings.JoinOfSplit | smartthings-nodeproxy/server.js:63 | joining the pieces of `split` with the separator restores the string |
| Strings.SplitPiecesFree | smartthings-nodeproxy/server.js:63 | no piece of `split` contains the separator |
| Strings.SplitOfJoin | smartthings-nodeproxy/server.js:63 | pieces free of the separator are recovered by splitting their join |
| Subscription.HostWithoutColon | smartthings-nodeproxy/server.js:63-76 | a token without ':' gives the whole token as address and an undefined port |
| Subscription.HostWithColon | smartthings-nodeproxy/server.js:63-76 | the address is the text before the first ':'; the port is the text after it, up to a second ':' if there is one |
| Subscription.HostRoundTrip | smartthings-nodeproxy/server.js:63-76 | the token `address + ":" + port` gives back that address and port when neither holds ':' |
| Subscription.Find | smartthings-nodeproxy/server.js:70 | returns the first entry whose address is strictly equal to the address, and none exactly when no entry has that address |
| Subscription.SubscribeNewAddress | smartthings-nodeproxy/server.js:70-77 | a new address appends exactly one entry `{address: parts[0], port: parts[1]}` at the end, and earlier entries stay as they were |
| Subscription.FirstPortWins | smartthings-nodeproxy/server.js:70-72 | a token whose address is already present leaves the list unchanged, whatever its port |
| Subscription.SubscribeRegisters | smartthings-nodeproxy/server.js:70-77 | after a subscription, the list has an entry with the token's address |
| Subscription.SubscribeIdempotent | smartthings-nodeproxy/server.js:70-85 | subscribing twice with the same token leaves the same list as subscribing once |
| Subscription.SubscribeKeepsUnique | smartthings-nodeproxy/server.js:70-85 | a list whose addresses are distinct stays so after a subscription |
| Subscription.Registry.constructor | smartthings-nodeproxy/server.js:26 | the registry starts with the configured `notify` value and nothing saved |
| Subscription.Registry.Register | smartthings-nodeproxy/server.js:63-85 | the stored list becomes `Subscribe(list, host)` when the key exists and stays absent otherwise; one save is recorded exactly when the address was new |
| Dispatch.Notify | smartthings-nodeproxy/server.js:122-144 | the loop's requests are exactly `Requests(plugin, data, list)`, in list order |
| Dispatch.RequestsAppend | smartthings-nodeproxy/server.js:127-132 | the requests for two lists one after the other are the requests for each list in turn |
| Dispatch.RequestsSingle | smartthings-nodeproxy/server.js:127-144 | one entry yields one request if it is usable and none otherwise |
| Dispatch.SkipIsolated | smartthings-nodeproxy/server.js:127-132 | whether one entry is skipped does not change the requests for the entries around it |
| Dispatch.SkippedIffFalsy | smartthings-nodeproxy/server.js:129 | an entry is skipped exactly when its address or its port is falsy; the length and zero tests add nothing |
| Dispatch.RequestsLength | smartthings-nodeproxy/server.js:127-132 | there are never more requests than entries |
| Dispatch.RequestSource | smartthings-nodeproxy/server.js:127-144 | each request is the one prepared for some usable entry of the list |
| Dispatch.RequestsShape | smartthings-nodeproxy/server.js:134-144 | there are never more requests than entries; each is `NOTIFY` expecting 200, with the three headers, `stnp-plugin` set to the plugin, body `data`, and the URL of some usable entry |
| Dispatch.UsableEntryCalled | smartthings-nodeproxy/server.js:127-144 | every usable entry gets its request |
| Dispatch.SubscribedTokenUrl | smartthings-nodeproxy/server.js:136 | an entry subscribed as `address:port` (both non-empty and free of ':') is used, and is called at `http://address:port/notify` |
| Dispatch.PortlessTokenNeverCalled | smartthings-nodeproxy/server.js:129 | an entry subscribed with a token without ':' has no port and is never called |
| Plugins.NameHasNoSlash | smartthings-nodeproxy/server.js:105-106 | a plugin name never holds '/' |
| Plugins.BaseNameAfterDir | smartthings-nodeproxy/server.js:105 | after an empty directory part or one ending in '/', a non-empty component without '/' is the base name |
| Plugins.StemOfBase | smartthings-nodeproxy/server.js:105-106 | `stem.ext` with no '.' in `ext` loses exactly its extension |
| Plugins.NameOfDeclared | smartthings-nodeproxy/server.js:105-106 | a file `dir/stem.ext` is named `stem` |
| Plugins.PlainName | smartthings-nodeproxy/server.js:105-106 | a file name without '/' or '.' is its own plugin name |
| Plugins.JsFileName | smartthings-nodeproxy/server.js:105-106 | `stem + ".js"` is named `stem` |
| Plugins.MountsOf | smartthings-nodeproxy/server.js:103-111 | one mount per declared file |
| Plugins.MountsOfAt | smartthings-nodeproxy/server.js:103-111 | the k-th mount is the k-th declared file's |
| Plugins.MountAll | smartthings-nodeproxy/server.js:100-112 | the startup loop builds the whole mount table, or none when `plugins` is absent |
| Plugins.TwoPluginsMounted | smartthings-nodeproxy/server.js:100-112 | `foo.js` and `bar.js` are mounted in that order under the names `foo` and `bar` |
| Plugins.FirstMount | smartthings-nodeproxy/server.js:107 | the router picks the first mount path a request path lies under, and none when it lies under none |
| Plugins.UnderOwnPrefix | smartthings-nodeproxy/server.js:107 | for a non-empty `id`, every path `/plugins/<id>/…` lies under the mount path of `id` |
| Plugins.MountsDisjoint | smartthings-nodeproxy/server.js:107 | two non-empty names without '/' whose mount paths both cover one path are the same name |
| Plugins.MountIsolation | smartthings-nodeproxy/server.js:107 | a path routed to one plugin lies under no mount of a different non-empty name |
| Plugins.TwoPluginsReached | smartthings-nodeproxy/server.js:107 | with two differently named plugins, a path below each one's prefix reaches that one |
| Gateway.AuthorizedIff | smartthings-nodeproxy/server.js:48-49 | the gate passes exactly when the header is present, non-empty and the configured code is that very string |
| Gateway.NonStringCodeLocksOut | smartthings-nodeproxy/server.js:48-49 | a missing or numeric `authCode` lets no request through |
| Gateway.SubscribeHost | smartthings-nodeproxy/server.js:62 | a recognised host is a non-empty segment without '/', and the path is the prefix and that host, with at most a trailing '/' |
| Gateway.SubscribePathRecognized | smartthings-nodeproxy/server.js:62 | every such segment is recognised, with or without the trailing '/' |
| Plugins.OutsidePlugins | smartthings-nodeproxy/server.js:107 | no mount path covers `/` or a path whose second character is not the `p` of `/plugins` |
| Gateway.RouteOf | smartthings-nodeproxy/server.js:36-109 | `GET /` is answered before the gate, and the status answer comes for `GET`/`HEAD /` only; a request is refused exactly when it is not `GET`/`HEAD /` and fails the gate, so an authorized request is always let through; subscribe and plugin routes are reached only when authorized; a plugin route is the first mount covering the path; the router's `OPTIONS` answer comes only for an authorized `OPTIONS` on a `GET` route's path that no mount covers; otherwise nothing matched |
| Gateway.OptionsAnswered | smartthings-nodeproxy/server.js:36-62 | an authorized `OPTIONS` of `/` or of `/subscribe/<host>` is answered 200 with `GET,HEAD` as its `Allow` header and body, whatever is mounted |
| Gateway.SubscribePathOutsidePlugins | smartthings-nodeproxy/server.js:62 | a subscribe path begins `/s` |
| Gateway.NoMountOutsidePlugins | smartthings-nodeproxy/server.js:107 | no plugin is reached by a path outside `/p...`, such as `/` or a subscribe path |
| Gateway.Answers | smartthings-nodeproxy/server.js:36-87 | the status route answers 200 with the running message, the gate answers 500 with the authentication error, and every subscription answers an empty 200 |
| Gateway.SubscribeReached | smartthings-nodeproxy/server.js:62 | an authorized `GET` of `/subscribe/<host>` reaches the subscribe route with that host, whatever is mounted |
| Gateway.FirstMountAt | smartthings-nodeproxy/server.js:107 | a path under the k-th mount path and under none before it goes to the k-th mount |
| Gateway.PrefixReached | smartthings-nodeproxy/server.js:43-107 | an authorized request below the mount path of a non-empty name that differs from all earlier names (themselves non-empty) is routed to that mount |
| Gateway.Ids | smartthings-nodeproxy/server.js:106 | the names of the mount table, in order |
| Gateway.IdsPrefixes | smartthings-nodeproxy/server.js:106-107 | each mount path is `/plugins/` and that mount's name, and no name holds '/' |
| Gateway.PluginReached | smartthings-nodeproxy/server.js:100-109 | an authorized request below the k-th plugin's mount path reaches that plugin, when its name and the names before it are non-empty and no earlier plugin has the same name (with `a/foo.js` and `b/foo.js` the second one is never reached) |
| Gateway.Server.constructor | smartthings-nodeproxy/server.js:100-112 | startup mounts exactly `MountTable(plugins)` and starts the registry from the configured list |
| Gateway.Server.Handle | smartthings-nodeproxy/server.js:36-88 | the response is the one of the route `RouteOf` picks; only the subscribe route changes the registry, as `Register` does, and a refused request leaves it unchanged |
| Gateway.Server.Emit | smartthings-nodeproxy/server.js:107-109 | a plugin's callback sends `Requests(name, data, list)` over the registry's current list, under that plugin's name |
| Gateway.SubscribeThenNotify | smartthings-nodeproxy/server.js:62-144 | after `address:port` subscribes to an empty list, a notification makes exactly one `NOTIFY` to `http://address:port/notify` with the plugin header and the payload |
| Gateway.ZeroPorts | smartthings-nodeproxy/server.js:129 | a string port "0" from a token is called back; a numeric port 0 from the configuration is passed over |

## Left out

- Express setup, `app.listen` and the default port 8080 are not modelled. They are socket I/O.
- `nconf.file` loading and the file written by `nconf.save` are not modelled. A save is recorded as the value of `notify` at the call.
- The asynchronous error callback of `nconf.save` is not modelled. When a save fails, its `res.status(500).json(…)` runs after `res.end()` has already sent the answer, throws `ERR_HTTP_HEADERS_SENT` inside the callback, and with nothing to catch it the process ends.
- `bent` network calls are not modelled, nor their promise outcomes and logging. Requests are described, never sent.
- Dispatch.Notify: every call is assumed to be issued. bent parses the URL before it sends, so a URL it cannot parse (a port `abc` from a token, or a numeric port 70000) throws out of the `forEach` and ends the walk, and no later entry is called. The isolation that `Dispatch.SkipIsolated` and `Dispatch.UsableEntryCalled` state therefore holds only when every entry's URL parses.
- `require('./' + file)` and the plugin handlers are not modelled. They are code loaded at run time. A plugin route is answered `Delegated(k)`.
- A plugin handler calling `next()` is not modelled. It would pass the request on to a later mount or to the 404.
- `logger` and its clock are not modelled. They have no effect on behaviour.
- Express's case-insensitive path matching is not modelled.
- Percent-decoding of `:host` is not modelled.
- Query strings and `req.url` rewriting inside mounts are not modelled. `Inbound.path` is the raw pathname, not percent-decoded, which is what Express matches routes and mounts against.
- The body of the router's 404 answer is not modelled.
- Path-to-regexp special characters in plugin names are not modelled. The mount path is matched as plain text.
- Windows path rules in `path.parse` are not modelled. Only the POSIX flavour is.
- JsValues.Render: numbers are integers, rendered as `Number.prototype.toString` writes an integer below 10^21 in magnitude. Fractions, NaN, infinities, exponent notation and `-0` are not modelled.
- `null`, booleans, objects and arrays as `authCode`, `address` or `port` values are not modelled. `null` reads as `Absent` and the rest is left out.
- `notify` entries that are not objects are not modelled.
- Server.Emit: a plugin that calls its callback synchronously while `require('./' + file)(…)` is still loading it is not modelled. At that point `notify`, declared after the plugin loop, is not yet initialised, so the call throws and startup aborts. The model treats every callback as coming after startup.
- The body of a `HEAD` answer is not modelled apart from the `GET` one. Express sends the same status and headers without the body, and `Respond` gives what the handler writes.
- Concurrent requests are not modelled. `Server.Handle` handles one request at a time, as Node's single thread runs each handler to completion.
