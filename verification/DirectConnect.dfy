/** Direct connect: instead of serving a hit itself, a node sends the client to the node that owns the key, with
    a signed token. A token is its claims and the secret that signed them: its signature verifies under
    that secret and no other. Times are nanoseconds since the epoch. */
module DirectConnect {
  import opened CacheTypes
  import opened DiskModel
  import opened DiskObject
  import opened KvProtocol
  import LossyMap
  import MetadataJson
  import UrlQuery
  import DiskRuns

  const ISSUER := "chacha"
  const AUDIENCE := "direct-connect"
  const HS256 := "HS256"

  const SECOND: nat := 1_000_000_000
  const VALIDITY: nat := 600 * SECOND
  const LEEWAY: nat := 10 * SECOND

  /** Times are whole seconds; a claim of the wrong kind is a token that does not parse. */
  datatype Claims = Claims(
    issuer: string,
    audience: seq<string>,
    subject: Text,
    notBefore: Option<int>,
    expiresAt: Option<int>)

  datatype Token = Malformed | Signed(method_: string, claims: Claims, secret: Text)

  datatype Auth = Granted(key: Key) | Refused(status: nat)

  /** `jwt.NewNumericDate`. */
  function NumericDate(t: int): int {
    t / SECOND
  }

  /** `generateDirectConnectToken`. The claims travel as JSON. */
  function GenerateToken(cluster: Option<Text>, key: Key, now: int): Option<Token> {
    if cluster.None? then None
    else
      Some(Signed(HS256,
                  Claims(ISSUER, [AUDIENCE], MetadataJson.Coerce(key), Some(NumericDate(now)),
                         Some(NumericDate(now + VALIDITY))),
                  cluster.value))
  }

  /** Sections 4.1.4 and 4.1.5 of RFC 7519, with the leeway. */
  predicate InTime(claims: Claims, now: int) {
    && (claims.expiresAt.Some? ==> now < claims.expiresAt.value * SECOND + LEEWAY)
    && (claims.notBefore.Some? ==> now >= claims.notBefore.value * SECOND - LEEWAY)
  }

  /** `performDirectConnectAuth`. */
  function PerformAuth(cluster: Option<Text>, token: Option<Token>, now: int): (auth: Auth)
    ensures auth.Refused? ==> auth.status == if cluster.None? then 404 else 401
  {
    if cluster.None? then Refused(404)
    else if token.None? || token.value.Malformed? then Refused(401)
    else
      var t := token.value;
      if t.method_ != HS256 || t.secret != cluster.value || !InTime(t.claims, now) then Refused(401)
      else if t.claims.issuer != ISSUER then Refused(401)
      else if AUDIENCE !in t.claims.audience then Refused(401)
      else Granted(t.claims.subject)
  }

  /** What a token of any origin must carry to be granted, and that this is enough. */
  lemma GrantedExactly(cluster: Option<Text>, token: Option<Token>, now: int, key: Key)
    ensures PerformAuth(cluster, token, now) == Granted(key) <==>
            && cluster.Some? && token.Some? && token.value.Signed?
            && token.value.method_ == "HS256" && token.value.secret == cluster.value
            && var claims := token.value.claims;
               && claims.issuer == "chacha" && "direct-connect" in claims.audience && claims.subject == key
               && (claims.expiresAt.Some? ==> now < (claims.expiresAt.value + 10) * 1_000_000_000)
               && (claims.notBefore.Some? ==> now >= (claims.notBefore.value - 10) * 1_000_000_000)
  {
  }

  /** When a token issued at one time is good, in whole seconds. */
  predicate InWindow(issued: int, now: int) {
    issued / SECOND - 10 <= now / SECOND < issued / SECOND + 610
  }

  lemma WindowInSeconds(issued: int, now: int)
    ensures InWindow(issued, now) <==>
            && now < NumericDate(issued + VALIDITY) * SECOND + LEEWAY
            && now >= NumericDate(issued) * SECOND - LEEWAY
  {
    Shifted(issued, 600);
    WholeSeconds(now, NumericDate(issued + VALIDITY) + 10);
    WholeSeconds(now, NumericDate(issued) - 10);
  }

  lemma Shifted(t: int, n: int)
    ensures (t + n * SECOND) / SECOND == t / SECOND + n
  {
  }

  lemma WholeSeconds(t: int, n: int)
    ensures t < n * SECOND <==> t / SECOND < n
  {
  }

  /** A token is accepted by exactly the nodes that have the secret it was signed with, for exactly as long as
      `InWindow` says, and then for the key it was issued for. */
  lemma AcceptedExactly(secret: Text, key: Key, issued: int, cluster: Option<Text>, now: int)
    ensures var token := GenerateToken(Some(secret), key, issued);
            PerformAuth(cluster, token, now) ==
              if cluster.None? then Refused(404)
              else if cluster.value == secret && InWindow(issued, now) then Granted(MetadataJson.Coerce(key))
              else Refused(401)
  {
    WindowInSeconds(issued, now);
  }

  /** The token is for the very key, if that is valid UTF-8 (every key of `CacheKey.KeyOf` is). */
  lemma GrantsTheKey(secret: Text, key: Key, issued: int, now: int)
    requires MetadataJson.ValidUtf8(key) && InWindow(issued, now)
    ensures PerformAuth(Some(secret), GenerateToken(Some(secret), key, issued), now) == Granted(key)
  {
    AcceptedExactly(secret, key, issued, Some(secret), now);
    MetadataJson.CoerceLengthens(key);
  }

  /** `token` */
  const TOKEN: Text := [0x74, 0x6F, 0x6B, 0x65, 0x6E]

  /** The token's text arrives in the query of the redirect as it was put there. */
  lemma TokenTravels(text: Text)
    ensures var query := UrlQuery.ParseQuery(UrlQuery.Encode(map[TOKEN := [text]]));
            TOKEN in query && query[TOKEN] == [text]
  {
    UrlQuery.ParseEncode(map[TOKEN := [text]]);
  }

  datatype Answer = Served(blob: Blob) | Status(code: nat)

  /** What a node answers that has `disk`, when nothing fails there. */
  ghost function Serve(cluster: Option<Text>, disk: LossyMap.Contents, token: Option<Token>, now: int): Answer {
    match PerformAuth(cluster, token, now)
    case Refused(code) => Status(code)
    case Granted(key) => if key in disk then Served(disk[key].blob) else Status(404)
  }

  /** `handleDirectConnectGet`: the blob of the key that the token was issued for. */
  method HandleDirectConnectGet(server: Server, token: Option<Token>, now: int, id: nat, trouble: GetFault,
                                download: Download)
    returns (status: nat, body: Blob)
    requires server.disk.Valid() && id !in server.disk.readers
    modifies server.disk
    ensures server.disk.Valid()
    ensures match PerformAuth(server.cluster, token, now)
            case Refused(code) => status == code && body == [] && server.disk.Model() == old(server.disk.Model())
            case Granted(key) =>
              && GetEffect(old(server.disk.Model()), server.disk.Model(), key, id, trouble)
              && (key !in old(server.disk.names) ==> status == 404 && body == [])
              && (key in old(server.disk.names) && !trouble.NoFault? ==> status == 500 && body == [])
              && (key in old(server.disk.names) && trouble.NoFault? ==>
                    var blob := DiskRuns.Visible(old(server.disk.Model()))[key].blob;
                    body == download.Yield(blob) && status == download.Status(blob))
    ensures trouble.NoFault? && download.breaksAt.None? && !download.closeFails ==>
              Serve(server.cluster, DiskRuns.Visible(old(server.disk.Model())), token, now)
              == if status == 200 then Served(body) else Status(status)
  {
    hide Apply, WellFormed, PerformAuth, DiskRuns.Opened;
    var auth := PerformAuth(server.cluster, token, now);
    if auth.Refused? {
      return auth.status, [];
    }
    var found, failed := server.disk.Get(auth.key, id, trouble);
    OpensWhatItFinds(old(server.disk.Model()), auth.key, id, trouble);
    if failed {
      return 500, [];
    }
    if found.None? {
      return 404, [];
    }
    var ok;
    body, ok := server.disk.CopyOut(id, download);
    status := if !ok && body == [] then 500 else 200;
  }
}
