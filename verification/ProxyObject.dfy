/** The parts of `handleProxyDefault` that work on headers and pick the cache, as the program has them; the steps
    of `ProxyModel` use what they compute. */
module ProxyObject {
  import opened CacheTypes
  import opened StoragePolicy
  import opened Rendezvous
  import opened ProxyModel

  /** `http.Header` as received: the values of each canonical name. */
  type Received = map<string, seq<Text>>

  const IF_NONE_MATCH := "If-None-Match"
  const DIRECT_CONNECT := "X-Chacha-Direct-Connect"

  /** What `removeEndToEndHeaders` deletes. */
  const HOP_BY_HOP := ["Connection", "Proxy-Connection", "Keep-Alive", "Te", "Transfer-Encoding", "Upgrade",
                       "Proxy-Authenticate", "Proxy-Authorization"]

  function Sent<T>(fields: map<string, T>, name: string): Option<T> {
    if name in fields then Some(fields[name]) else None
  }

  /** The last value of a name. */
  function LastValue(from: Received, name: string): Option<Text> {
    if name in from && from[name] != [] then Some(from[name][|from[name]| - 1]) else None
  }

  method RemoveEndToEndHeaders<T>(header: map<string, T>) returns (rest: map<string, T>)
    ensures forall name :: Sent(rest, name) ==
              if name in {"Connection", "Proxy-Connection", "Keep-Alive", "Te", "Transfer-Encoding", "Upgrade",
                          "Proxy-Authenticate", "Proxy-Authorization"} then None
              else Sent(header, name)
  {
    rest := header;
    for i := 0 to |HOP_BY_HOP|
      invariant forall name :: Sent(rest, name) == if name in HOP_BY_HOP[..i] then None else Sent(header, name)
    {
      assert HOP_BY_HOP[..i + 1] == HOP_BY_HOP[..i] + [HOP_BY_HOP[i]];
      rest := rest - {HOP_BY_HOP[i]};
    }
    assert HOP_BY_HOP[..|HOP_BY_HOP|] == HOP_BY_HOP;
    forall name
      ensures name in HOP_BY_HOP <==>
              name in {"Connection", "Proxy-Connection", "Keep-Alive", "Te", "Transfer-Encoding", "Upgrade",
                       "Proxy-Authenticate", "Proxy-Authorization"}
    {
      TheEightNames(name);
    }
  }

  lemma TheEightNames(name: string)
    ensures name in HOP_BY_HOP <==>
            name in {"Connection", "Proxy-Connection", "Keep-Alive", "Te", "Transfer-Encoding", "Upgrade",
                     "Proxy-Authenticate", "Proxy-Authorization"}
  {
    var h := HOP_BY_HOP;
    assert h[0] == "Connection" && h[1] == "Proxy-Connection" && h[2] == "Keep-Alive" && h[3] == "Te";
    assert h[4] == "Transfer-Encoding" && h[5] == "Upgrade" && h[6] == "Proxy-Authenticate";
    assert h[7] == "Proxy-Authorization" && |h| == 8;
  }

  /** `Set` for every value of one name: the last one stays. */
  method CopyValues(header: map<string, Text>, name: string, values: seq<Text>) returns (fields: map<string, Text>)
    ensures fields == if values == [] then header else header[name := values[|values| - 1]]
  {
    fields := header;
    for i := 0 to |values|
      invariant fields == if i == 0 then header else header[name := values[i - 1]]
    {
      fields := fields[name := values[i]];
    }
  }

  /** All the headers of one side over those that are there already. */
  method CopyHeaders(first: map<string, Text>, from: Received) returns (fields: map<string, Text>)
    ensures forall name :: Sent(fields, name) ==
              if LastValue(from, name).Some? then LastValue(from, name) else Sent(first, name)
  {
    fields := first;
    var rest := from.Keys;
    while rest != {}
      invariant rest <= from.Keys
      invariant forall name :: Sent(fields, name) ==
                  if name !in rest && LastValue(from, name).Some? then LastValue(from, name) else Sent(first, name)
      decreases rest
    {
      var name :| name in rest;
      fields := CopyValues(fields, name, from[name]);
      rest := rest - {name};
    }
  }

  /** The headers of the upstream request: the cached ETag first, the client's headers over it, the
      hop-by-hop ones removed at the end. */
  method UpstreamHeaders(etag: Text, client: Received) returns (fields: map<string, Text>)
    ensures forall name :: Sent(fields, name) ==
              if name in {"Connection", "Proxy-Connection", "Keep-Alive", "Te", "Transfer-Encoding", "Upgrade",
                          "Proxy-Authenticate", "Proxy-Authorization"} then None
              else if LastValue(client, name).Some? then LastValue(client, name)
              else if name == "If-None-Match" && etag != [] then Some(etag)
              else None
    ensures Sent(fields, "Authorization") == LastValue(client, "Authorization")
    ensures Sent(fields, "Range") == LastValue(client, "Range") && Sent(fields, "Accept") == LastValue(client, "Accept")
  {
    fields := map[];
    if etag != [] {
      fields := fields[IF_NONE_MATCH := etag];
    }
    fields := CopyHeaders(fields, client);
    fields := RemoveEndToEndHeaders(fields);
  }

  /** The origin's headers without the hop-by-hop ones and without the direct-connect hint, which only this server
      can give. */
  method OriginHeaders(origin: Received) returns (fields: map<string, Text>)
    ensures forall name :: Sent(fields, name) ==
              if name in {"Connection", "Proxy-Connection", "Keep-Alive", "Te", "Transfer-Encoding", "Upgrade",
                          "Proxy-Authenticate", "Proxy-Authorization", "X-Chacha-Direct-Connect"} then None
              else LastValue(origin, name)
  {
    var rest := RemoveEndToEndHeaders(origin);
    ghost var all := rest;
    rest := rest - {DIRECT_CONNECT};
    fields := CopyHeaders(map[], rest);
    forall name
      ensures Sent(fields, name) ==
                if name in {"Connection", "Proxy-Connection", "Keep-Alive", "Te", "Transfer-Encoding", "Upgrade",
                            "Proxy-Authenticate", "Proxy-Authorization", "X-Chacha-Direct-Connect"} then None
                else LastValue(origin, name)
    {
      assert Sent(rest, name) == if name == DIRECT_CONNECT then None else Sent(all, name);
      ValueOfSent(rest, name);
      ValueOfSent(origin, name);
    }
  }

  lemma ValueOfSent(from: Received, name: string)
    ensures LastValue(from, name) ==
              match Sent(from, name)
              case None => None
              case Some(values) => if values == [] then None else Some(values[|values| - 1])
  {
  }

  /** The headers of the response, with those of a redirect over the origin's. */
  method DownstreamHeaders(origin: Received, location: Option<Text>, hint: bool) returns (fields: map<string, Text>)
    ensures Sent(fields, "X-Chacha-Direct-Connect") == if location.Some? && hint then Some([0x31]) else None
    ensures location.Some? ==> Sent(fields, "Location") == location
    ensures Sent(fields, "ETag") == LastValue(origin, "ETag")
    ensures forall name :: name != "X-Chacha-Direct-Connect" && (location.Some? ==> name != "Location") ==>
              Sent(fields, name) ==
                if name in {"Connection", "Proxy-Connection", "Keep-Alive", "Te", "Transfer-Encoding", "Upgrade",
                            "Proxy-Authenticate", "Proxy-Authorization"} then None
                else LastValue(origin, name)
  {
    fields := OriginHeaders(origin);
    var hinted := "X-Chacha-Direct-Connect";
    assert Sent(fields, hinted) == None && hinted[0] != "Location"[0];
    ghost var plain := fields;
    if location.Some? {
      fields := fields["Location" := location.value];
      if hint {
        fields := fields[hinted := [0x31]];
      }
    }
    assert forall name :: name != hinted && (location.Some? ==> name != "Location") ==>
      Sent(fields, name) == Sent(plain, name);
  }

  /** The precondition of the step system is the one that these headers carry. */
  method Precondition(cached: Option<Entry>, req: Request, client: Received) returns (sent: Option<Text>)
    requires req.ifNoneMatch == LastValue(client, "If-None-Match")
    ensures sent == IfNoneMatch(cached, req)
  {
    var fields := UpstreamHeaders(if cached.Some? then cached.value.meta.etag else [], client);
    assert IF_NONE_MATCH == "If-None-Match";
    sent := Sent(fields, IF_NONE_MATCH);
  }

  /** `server.cache`: the node to ask over the KV protocol, or none for the server's own disk. */
  method PickCache(cluster: Cluster?, local: Node, key: Key) returns (remote: Option<Node>)
    requires cluster != null ==> cluster.nodes != {} && cluster.addr == local
    ensures remote != Some(local)
    ensures Owns(ConfigOf(cluster), local, key, if remote.Some? then remote.value else local)
  {
    if cluster != null {
      var target := cluster.TargetNode(key);
      if target != cluster.addr {
        return Some(target);
      }
    }
    return None;
  }

  ghost function ConfigOf(cluster: Cluster?): Config {
    if cluster == null then Config({}, None)
    else Config(cluster.nodes, Some(ClusterConfig(cluster.nodes, cluster.score, cluster.secret)))
  }

  /** Of several values of a name the last one counts. */
  lemma LastValueIsLast(client: Received, name: string, values: seq<Text>, last: Text)
    ensures LastValue(client[name := values + [last]], name) == Some(last)
    ensures LastValue(client[name := []], name) == None && (name !in client ==> LastValue(client, name) == None)
  {
  }
}
