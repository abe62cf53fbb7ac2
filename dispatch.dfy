/** The notification dispatcher, `notify(plugin, data)`: one outbound `NOTIFY`
    call per usable entry of the `notify` list. The calls are described, not
    made. */
module Dispatch {
  import opened JsValues
  import opened Strings
  import opened Subscription

  datatype Header = Header(name: string, value: string)

  /** One call `bent(method, expectedStatus)(url, body, headers)`. */
  datatype Request = Request(verb: string, expectedStatus: nat, url: string, headers: seq<Header>, body: string)

  /** The guard at the head of the `forEach` callback: an entry with a falsy
      or empty address, or a falsy or zero port, is logged and passed over. */
  predicate Skipped(e: Endpoint)
  {
    !Truthy(e.address) || (e.address.Str? && |e.address.s| == 0) || !Truthy(e.port) || e.port == Num(0)
  }

  function NotifyUrl(e: Endpoint): string
  {
    "http://" + Render(e.address) + ":" + Render(e.port) + "/notify"
  }

  function NotifyHeaders(plugin: string): seq<Header>
  {
    [Header("content-type", "application/json"), Header("connection", "close"), Header("stnp-plugin", plugin)]
  }

  function NotifyRequest(plugin: string, data: string, e: Endpoint): Request
  {
    Request("NOTIFY", 200, NotifyUrl(e), NotifyHeaders(plugin), data)
  }

  /** The calls `notify(plugin, data)` makes over `eps`, in list order. */
  function Requests(plugin: string, data: string, eps: seq<Endpoint>): seq<Request>
  {
    if eps == [] then []
    else (if Skipped(eps[0]) then [] else [NotifyRequest(plugin, data, eps[0])]) + Requests(plugin, data, eps[1..])
  }

  /** The body of `notify`: walk the list, pass over unusable entries, and
      prepare one call for each of the others. */
  method Notify(plugin: string, data: string, eps: seq<Endpoint>) returns (calls: seq<Request>)
    ensures calls == Requests(plugin, data, eps)
  {
    calls := [];
    for i := 0 to |eps|
      invariant calls == Requests(plugin, data, eps[..i])
    {
      var endPoint := eps[i];
      assert eps[..i + 1] == eps[..i] + [endPoint];
      RequestsAppend(plugin, data, eps[..i], [endPoint]);
      if Skipped(endPoint) {
        continue;
      }
      calls := calls + [NotifyRequest(plugin, data, endPoint)];
    }
    assert eps[..|eps|] == eps;
  }

  /** Entries are handled independently: the calls for a concatenation are
      the calls for each part, one after the other. */
  lemma {:induction false} RequestsAppend(plugin: string, data: string, a: seq<Endpoint>, b: seq<Endpoint>)
    ensures Requests(plugin, data, a + b) == Requests(plugin, data, a) + Requests(plugin, data, b)
  {
    if a != [] {
      assert (a + b)[1..] == a[1..] + b;
      RequestsAppend(plugin, data, a[1..], b);
    } else {
      assert a + b == b;
    }
  }

  /** An entry alone yields one call if it is usable and none otherwise. */
  lemma RequestsSingle(plugin: string, data: string, e: Endpoint)
    ensures Requests(plugin, data, [e]) == if Skipped(e) then [] else [NotifyRequest(plugin, data, e)]
  {
    assert [e][1..] == [];
  }

  /** Whether one entry is passed over has no bearing on the calls made for
      the entries around it. */
  lemma SkipIsolated(plugin: string, data: string, before: seq<Endpoint>, e: Endpoint, after: seq<Endpoint>)
    ensures Requests(plugin, data, before + [e] + after) ==
            Requests(plugin, data, before) + (if Skipped(e) then [] else [NotifyRequest(plugin, data, e)]) + Requests(plugin, data, after)
  {
    RequestsAppend(plugin, data, before + [e], after);
    RequestsAppend(plugin, data, before, [e]);
    RequestsSingle(plugin, data, e);
  }

  /** The length and zero tests of the guard add nothing to the truthiness
      tests: an entry is used exactly when its address and its port are both
      truthy. So a port held as the string "0" is used and only the number 0
      is passed over. */
  lemma SkippedIffFalsy(e: Endpoint)
    ensures Skipped(e) <==> !Truthy(e.address) || !Truthy(e.port)
  {
  }

  /** There are never more calls than entries. */
  lemma {:induction false} RequestsLength(plugin: string, data: string, eps: seq<Endpoint>)
    ensures |Requests(plugin, data, eps)| <= |eps|
  {
    if eps != [] {
      RequestsLength(plugin, data, eps[1..]);
    }
  }

  /** The `k`-th call is the one prepared for some usable entry `j`. */
  lemma {:induction false} RequestSource(plugin: string, data: string, eps: seq<Endpoint>, k: nat) returns (j: nat)
    requires k < |Requests(plugin, data, eps)|
    ensures j < |eps| && !Skipped(eps[j])
    ensures Requests(plugin, data, eps)[k] == NotifyRequest(plugin, data, eps[j])
  {
    assert eps != [];
    var head: seq<Request> := if Skipped(eps[0]) then [] else [NotifyRequest(plugin, data, eps[0])];
    var tail := Requests(plugin, data, eps[1..]);
    assert Requests(plugin, data, eps) == head + tail;
    if k < |head| {
      j := 0;
    } else {
      var i := RequestSource(plugin, data, eps[1..], k - |head|);
      j := i + 1;
      assert eps[1..][i] == eps[j];
    }
  }

  /** Every call is a `NOTIFY` expecting status 200, carries the three fixed
      headers with the plugin's name and the payload as its body, and goes to
      a usable entry of the list. There are never more calls than entries. */
  lemma RequestsShape(plugin: string, data: string, eps: seq<Endpoint>)
    ensures |Requests(plugin, data, eps)| <= |eps|
    ensures forall k :: 0 <= k < |Requests(plugin, data, eps)| ==>
              var r := Requests(plugin, data, eps)[k];
              r.verb == "NOTIFY" && r.expectedStatus == 200 && r.body == data &&
              r.headers == NotifyHeaders(plugin) &&
              exists j :: 0 <= j < |eps| && !Skipped(eps[j]) && r.url == NotifyUrl(eps[j])
  {
    RequestsLength(plugin, data, eps);
    forall k | 0 <= k < |Requests(plugin, data, eps)|
      ensures var r := Requests(plugin, data, eps)[k];
              r.verb == "NOTIFY" && r.expectedStatus == 200 && r.body == data &&
              r.headers == NotifyHeaders(plugin) &&
              exists j :: 0 <= j < |eps| && !Skipped(eps[j]) && r.url == NotifyUrl(eps[j])
    {
      var j := RequestSource(plugin, data, eps, k);
    }
  }

  /** Every usable entry is called. */
  lemma {:induction false} UsableEntryCalled(plugin: string, data: string, eps: seq<Endpoint>, j: nat)
    requires j < |eps| && !Skipped(eps[j])
    ensures NotifyRequest(plugin, data, eps[j]) in Requests(plugin, data, eps)
  {
    assert eps == eps[..j] + [eps[j]] + eps[j + 1..];
    SkipIsolated(plugin, data, eps[..j], eps[j], eps[j + 1..]);
  }

  /** An entry whose address and port hold no colon and are not empty, as a
      subscription with the token `address + ":" + port` creates it, is
      called back at `http://<token>/notify`. */
  lemma SubscribedTokenUrl(address: string, port: string)
    requires ':' !in address && ':' !in port
    requires address != "" && port != ""
    ensures !Skipped(EndpointOf(address + ":" + port))
    ensures NotifyUrl(EndpointOf(address + ":" + port)) == "http://" + (address + ":" + port) + "/notify"
  {
    HostRoundTrip(address, port);
  }

  /** A token without a colon leaves the port missing, so its entry is never
      called. */
  lemma PortlessTokenNeverCalled(host: string)
    requires ':' !in host
    ensures Skipped(EndpointOf(host))
  {
    HostWithoutColon(host);
  }
}
