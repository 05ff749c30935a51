/** What the KV protocol puts into HTTP headers (`internal/cache/kv/header.go` and basic authentication), and that it
    comes back. */
module KvHeaders {
  import opened CacheTypes
  import Base64
  import UrlQuery
  import MetadataJson

  /** The part of `http.Header` that the protocol uses: one value per name. */
  type Fields = map<string, Text>

  const HEADER_KEY := "X-Chacha-Key"
  const HEADER_METADATA := "X-Chacha-Metadata"
  const AUTHORIZATION := "Authorization"

  /** `Basic ` */
  const BASIC: Text := [0x42, 0x61, 0x73, 0x69, 0x63, 0x20]
  const COLON: Byte := 0x3A

  class Header {
    var fields: Fields

    constructor ()
      ensures fields == map[]
    {
      fields := map[];
    }

    method Set(name: string, value: Text)
      modifies this
      ensures fields == old(fields)[name := value]
    {
      fields := fields[name := value];
    }
  }

  function Get(fields: Fields, name: string): Text {
    if name in fields then fields[name] else []
  }

  /** `decode`. */
  function DecodeField(fields: Fields, name: string): Option<Text> {
    if Get(fields, name) == [] then None else Base64.Decode(Get(fields, name))
  }

  function GetKey(fields: Fields): Option<Key> {
    DecodeField(fields, HEADER_KEY)
  }

  function GetMetadata(fields: Fields): Option<Metadata> {
    var text := DecodeField(fields, HEADER_METADATA);
    if text.None? then None else MetadataJson.Unmarshal(text.value)
  }

  /** `SetKey`: the key comes back, unless it is empty. */
  method SetKey(header: Header, key: Key)
    modifies header
    ensures header.fields == old(header.fields)[HEADER_KEY := Base64.Encode(key)]
    ensures header.fields == old(header.fields)["X-Chacha-Key" := Base64.Encode(key)]
    ensures GetKey(header.fields) == if key == [] then None else Some(key)
  {
    Base64.RoundTrip(key);
    header.Set(HEADER_KEY, Base64.Encode(key));
  }

  /** `SetMetadata`: the metadata comes back with its ETag made valid UTF-8. */
  method SetMetadata(header: Header, m: Metadata)
    modifies header
    ensures header.fields == old(header.fields)[HEADER_METADATA := Base64.Encode(MetadataJson.Marshal(m))]
    ensures header.fields == old(header.fields)["X-Chacha-Metadata" := Base64.Encode(MetadataJson.Marshal(m))]
    ensures GetMetadata(header.fields) == Some(MetadataJson.Coerced(m))
  {
    MetadataJson.UnmarshalMarshal(m);
    Base64.RoundTrip(MetadataJson.Marshal(m));
    header.Set(HEADER_METADATA, Base64.Encode(MetadataJson.Marshal(m)));
  }

  /** The key header carries every non-empty key through base64. */
  lemma KeyRoundTrip(fields: Fields, key: Key)
    ensures GetKey(fields[HEADER_KEY := Base64.Encode(key)]) == if key == [] then None else Some(key)
  {
    Base64.RoundTrip(key);
  }

  /** The metadata header returns the metadata unchanged exactly when the ETag is valid UTF-8. */
  lemma MetadataRoundTrip(fields: Fields, m: Metadata)
    ensures GetMetadata(fields[HEADER_METADATA := Base64.Encode(MetadataJson.Marshal(m))]) == Some(m)
            <==> MetadataJson.ValidUtf8(m.etag)
  {
    MetadataJson.SurvivesExactlyIfValid(m);
    MetadataJson.UnmarshalMarshal(m);
    Base64.RoundTrip(MetadataJson.Marshal(m));
  }

  function Lower(b: Byte): Byte {
    if 0x41 <= b < 0x5B then b + 32 else b
  }

  function Lowers(s: Text): Text {
    seq(|s|, i requires 0 <= i < |s| => Lower(s[i]))
  }

  /** `Request.BasicAuth`: the password. */
  function BasicPassword(fields: Fields): Option<Text> {
    var auth := Get(fields, AUTHORIZATION);
    if |auth| < 6 || Lowers(auth[..6]) != Lowers(BASIC) then None
    else
      var userpass := Base64.Decode(auth[6..]);
      if userpass.None? then None
      else
        var i := UrlQuery.IndexOf(userpass.value, COLON);
        if i == |userpass.value| then None else Some(userpass.value[i + 1..])
  }

  /** The same letters up to case, by code point. */
  predicate SameLetters(a: Text, b: Text) {
    |a| == |b| && forall i :: 0 <= i < |a| ==>
      a[i] == b[i] || (0x41 <= a[i] <= 0x5A && b[i] == a[i] + 0x20) || (0x41 <= b[i] <= 0x5A && a[i] == b[i] + 0x20)
  }

  /** `Request.SetBasicAuth("", secret)`. */
  function BasicAuth(secret: Text): Text {
    BASIC + Base64.Encode([COLON] + secret)
  }

  /** Basic authentication as section 2 of RFC 7617 has it: whatever the case of the scheme, the password is what
      follows the first colon, whoever the user is. */
  lemma PasswordFollowsFirstColon(fields: Fields, scheme: Text, user: Text, password: Text)
    requires Spells(BASIC, "Basic ") && SameLetters(scheme, BASIC) && COLON !in user
    requires "Authorization" in fields && fields["Authorization"] == scheme + Base64.Encode(user + [0x3A] + password)
    ensures BasicPassword(fields) == Some(password)
  {
    var auth := scheme + Base64.Encode(user + [0x3A] + password);
    assert auth[..6] == scheme && auth[6..] == Base64.Encode(user + [0x3A] + password);
    assert Lowers(scheme) == Lowers(BASIC);
    Base64.RoundTrip(user + [0x3A] + password);
    UrlQuery.IndexOfFirst(user, COLON, password);
    hide Lowers, UrlQuery.IndexOf;
    assert (user + [0x3A] + password)[|user| + 1..] == password;
  }

  /** Credentials of another scheme, or none, are no password. */
  lemma OtherSchemesAreRefused(fields: Fields)
    requires "Authorization" in fields ==>
               |fields["Authorization"]| < 6 || !SameLetters(fields["Authorization"][..6], BASIC)
    ensures BasicPassword(fields) == None
  {
    var auth := Get(fields, AUTHORIZATION);
    if |auth| >= 6 && Lowers(auth[..6]) == Lowers(BASIC) {
      var a, b := auth[..6], BASIC;
      forall i | 0 <= i < 6
        ensures a[i] == b[i] || (0x41 <= a[i] <= 0x5A && b[i] == a[i] + 0x20)
                || (0x41 <= b[i] <= 0x5A && a[i] == b[i] + 0x20)
      {
        assert Lowers(a)[i] == Lowers(b)[i];
      }
      assert SameLetters(a, b);
    }
  }

  /** Any secret, colons included, comes back as the password. */
  lemma PasswordRoundTrip(fields: Fields, secret: Text)
    requires AUTHORIZATION in fields && fields[AUTHORIZATION] == BasicAuth(secret)
    ensures BasicPassword(fields) == Some(secret)
  {
    var auth := BasicAuth(secret);
    assert auth[..6] == BASIC && auth[6..] == Base64.Encode([COLON] + secret);
    Base64.RoundTrip([COLON] + secret);
  }

  lemma OtherFieldsStay(before: Fields, value: Text)
    ensures var after := before[HEADER_METADATA := value];
            GetKey(after) == GetKey(before) && BasicPassword(after) == BasicPassword(before)
  {
    hide Lowers, Base64.Decode, UrlQuery.IndexOf;
    var after := before[HEADER_METADATA := value];
    assert HEADER_METADATA[2] != HEADER_KEY[2] || |HEADER_METADATA| != |HEADER_KEY|;
    assert HEADER_METADATA[0] != AUTHORIZATION[0];
    assert Get(after, HEADER_KEY) == Get(before, HEADER_KEY) && Get(after, AUTHORIZATION) == Get(before, AUTHORIZATION);
  }
}
