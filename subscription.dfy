/** The subscription registry: the `notify` list of the configuration store,
    which the `/subscribe/:host` route extends and the notification dispatcher
    reads. */
module Subscription {
  import opened JsValues
  import opened Strings

  /** One entry of the `notify` list. Entries that subscribe creates hold
      strings (the port may be missing); entries written into the
      configuration file by hand may hold numbers or miss a field. */
  datatype Endpoint = Endpoint(address: JsValue, port: JsValue)

  /** `host.split(":")`, read as `parts[0]` (always a string) and `parts[1]`
      (`undefined` when the token has no colon). */
  function HostParts(host: string): (string, JsValue)
  {
    var parts := Split(host, ':');
    (parts[0], if |parts| > 1 then Str(parts[1]) else Absent)
  }

  /** The endpoint `{address: parts[0], port: parts[1]}` a subscription pushes. */
  function EndpointOf(host: string): Endpoint
  {
    Endpoint(Str(HostParts(host).0), HostParts(host).1)
  }

  /** A token without a colon is all address, and its port is missing. */
  lemma HostWithoutColon(host: string)
    requires ':' !in host
    ensures HostParts(host) == (host, Absent)
  {
  }

  /** With a colon, the address is the text before the first colon and the
      port is the text after it, up to a second colon if there is one. */
  lemma HostWithColon(host: string)
    requires ':' in host
    ensures var i := FirstIndex(host, ':');
            var rest := host[i + 1..];
            HostParts(host) == (host[..i], Str(if ':' in rest then rest[..FirstIndex(rest, ':')] else rest))
  {
    var i := FirstIndex(host, ':');
    var rest := host[i + 1..];
    assert Split(host, ':')[1] == Split(rest, ':')[0];
  }

  /** An address and a port that hold no colon are recovered from the token
      `address + ":" + port`. */
  lemma HostRoundTrip(address: string, port: string)
    requires ':' !in address && ':' !in port
    ensures HostParts(address + ":" + port) == (address, Str(port))
  {
    var parts := [address, port];
    assert Join(parts, ':') == address + ":" + port by {
      assert Join(parts[1..], ':') == port;
    }
    SplitOfJoin(parts, ':');
  }

  /** Some entry's address is strictly equal to the string `address`. */
  predicate HasAddress(eps: seq<Endpoint>, address: string)
  {
    exists i :: 0 <= i < |eps| && eps[i].address == Str(address)
  }

  /** No two entries share an address. */
  predicate UniqueAddresses(eps: seq<Endpoint>)
  {
    forall i, j :: 0 <= i < j < |eps| ==> eps[i].address != eps[j].address
  }

  /** `eps.find(element => element.address === address)`, reporting where
      the element found sits. */
  method Find(eps: seq<Endpoint>, address: string) returns (found: Option<nat>)
    ensures found.Some? ==> found.value < |eps| && eps[found.value].address == Str(address)
    ensures found.Some? ==> forall j :: 0 <= j < found.value ==> eps[j].address != Str(address)
    ensures found.None? <==> !HasAddress(eps, address)
  {
    var i := 0;
    while i < |eps|
      invariant i <= |eps|
      invariant forall j :: 0 <= j < i ==> eps[j].address != Str(address)
    {
      if eps[i].address == Str(address) {
        return Some(i);
      }
      i := i + 1;
    }
    return None;
  }

  /** The list a subscription with token `host` leaves behind, read as the
      list that was read: the parsed endpoint is appended unless an entry
      already has its address. */
  function Subscribe(eps: seq<Endpoint>, host: string): seq<Endpoint>
  {
    if HasAddress(eps, HostParts(host).0) then eps else eps + [EndpointOf(host)]
  }

  /** A new address is appended, exactly once, at the end; earlier entries
      stay as they were. */
  lemma SubscribeNewAddress(eps: seq<Endpoint>, host: string)
    requires !HasAddress(eps, HostParts(host).0)
    ensures var r := Subscribe(eps, host);
            |r| == |eps| + 1 && r[..|eps|] == eps &&
            r[|eps|] == Endpoint(Str(HostParts(host).0), HostParts(host).1)
  {
  }

  /** An address already present leaves the list as it is, whatever port the
      new token carries: the first registration's port wins. */
  lemma FirstPortWins(eps: seq<Endpoint>, address: string, port: string)
    requires ':' !in address && ':' !in port
    requires HasAddress(eps, address)
    ensures Subscribe(eps, address + ":" + port) == eps
  {
    HostRoundTrip(address, port);
  }

  /** After a subscription its address is registered. */
  lemma SubscribeRegisters(eps: seq<Endpoint>, host: string)
    ensures HasAddress(Subscribe(eps, host), HostParts(host).0)
  {
    var r := Subscribe(eps, host);
    if !HasAddress(eps, HostParts(host).0) {
      assert r[|eps|].address == Str(HostParts(host).0);
    }
  }

  /** Subscribing with the same token twice is the same as once. */
  lemma SubscribeIdempotent(eps: seq<Endpoint>, host: string)
    ensures Subscribe(Subscribe(eps, host), host) == Subscribe(eps, host)
  {
    SubscribeRegisters(eps, host);
  }

  /** Subscription keeps the addresses of the list distinct. */
  lemma SubscribeKeepsUnique(eps: seq<Endpoint>, host: string)
    requires UniqueAddresses(eps)
    ensures UniqueAddresses(Subscribe(eps, host))
  {
  }

  /** The registry: the configuration store's `notify` key, and the values
      of that key each `nconf.save` call handed to the store. The store's
      `get` hands out the stored array itself, so a `push` on what `get`
      returned changes the store; when the key is absent the handler pushes
      onto a fresh local array, which nothing keeps. */
  class Registry {
    var notify: Option<seq<Endpoint>>
    var saved: seq<Option<seq<Endpoint>>>

    constructor (initial: Option<seq<Endpoint>>)
      ensures notify == initial && saved == []
    {
      notify := initial;
      saved := [];
    }

    /** The list the handlers walk: the key's value, or `[]` when it is absent. */
    function Endpoints(): seq<Endpoint>
      reads this
    {
      if notify.Some? then notify.value else []
    }

    /** The `/subscribe/:host` handler's work on the store. */
    method Register(host: string)
      modifies this
      ensures notify == if old(notify).Some? then Some(Subscribe(old(notify).value, host)) else None
      ensures saved == if HasAddress(old(Endpoints()), HostParts(host).0) then old(saved) else old(saved) + [notify]
    {
      var (address, port) := HostParts(host);
      var list := Endpoints();
      var found := Find(list, address);
      if found.None? {
        list := list + [Endpoint(Str(address), port)];
        if notify.Some? {
          notify := Some(list);
        }
        saved := saved + [notify];
      }
    }
  }
}
