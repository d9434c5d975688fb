/** The WebSocket authentication service of src/auth/mod.rs: API-key and
    signature authentication of the `auth` message, and the signing string
    both sides build from the authentication fields. HMAC-SHA256, base64, the
    RFC 3339 rendering of the timestamp and the clock are parameters. */
module Auth {
  import opened Wrappers
  import opened Bytes
  import opened Text
  import opened Models

  type u64 = x: int | 0 <= x < 0x1_0000_0000_0000_0000

  /** `AuthConfig` of the settings file. */
  datatype AuthConfig = AuthConfig(secretKey: string, validApiKeys: seq<string>, timestampTolerance: u64)

  /** The primitives the service relies on: HMAC-SHA256 of a message under a
      key, standard base64 with padding, and `DateTime::to_rfc3339` of a time,
      fraction of a second included. */
  datatype Primitives = Primitives(hmac: (seq<byte>, seq<byte>) -> seq<byte>, base64: seq<byte> -> string, rfc3339: UtcTime -> string)

  datatype AuthService = AuthService(secretKey: string, validApiKeys: seq<string>, timestampTolerance: int)

  /** `u64 as i64`: two's complement reinterpretation. */
  function AsI64(x: u64): (r: int)
    ensures -0x8000_0000_0000_0000 <= r < 0x8000_0000_0000_0000
    ensures r % 0x1_0000_0000_0000_0000 == x
    ensures x < 0x8000_0000_0000_0000 <==> r == x
  {
    if x < 0x8000_0000_0000_0000 then x else x - 0x1_0000_0000_0000_0000
  }

  /** `AuthService::new`: the tolerance is cast to a signed 64-bit integer. */
  function NewService(config: AuthConfig): (s: AuthService)
    ensures s.secretKey == config.secretKey && s.validApiKeys == config.validApiKeys
    ensures config.timestampTolerance < 0x8000_0000_0000_0000 ==> s.timestampTolerance == config.timestampTolerance
    ensures config.timestampTolerance >= 0x8000_0000_0000_0000 ==> s.timestampTolerance < 0
  {
    AuthService(config.secretKey, config.validApiKeys, AsI64(config.timestampTolerance))
  }

  const UNSUPPORTED_TYPE := "Unsupported authentication type"
  const STALE_TIMESTAMP := "Timestamp is too old or too far in the future"
  const INVALID_API_KEY := "Invalid API key"
  const INVALID_SIGNATURE := "Invalid signature"

  /** Lexicographic order of keys. For strings, comparing code points in
      order agrees with comparing their UTF-8 bytes, which is what `str`'s
      `Ord` does. */
  predicate KeyLess(a: string, b: string)
    decreases |a|
  {
    if a == [] then b != []
    else if b == [] then false
    else a[0] < b[0] || (a[0] == b[0] && KeyLess(a[1..], b[1..]))
  }

  lemma KeyLessIrreflexive(a: string)
    ensures !KeyLess(a, a)
  {
  }

  lemma {:induction false} KeyLessTransitive(a: string, b: string, c: string)
    requires KeyLess(a, b) && KeyLess(b, c)
    ensures KeyLess(a, c)
    decreases |a|
  {
    if a != [] && a[0] == b[0] && b[0] == c[0] {
      KeyLessTransitive(a[1..], b[1..], c[1..]);
    }
  }

  lemma {:induction false} KeyLessTotal(a: string, b: string)
    requires a != b
    ensures KeyLess(a, b) || KeyLess(b, a)
    decreases |a|
  {
    if a != [] && b != [] && a[0] == b[0] {
      assert a == [a[0]] + a[1..] && b == [b[0]] + b[1..];
      KeyLessTotal(a[1..], b[1..]);
    }
  }

  /** One `key=value` entry of the signing string. */
  datatype Part = Part(key: string, value: string)

  /** Strictly increasing keys, so in particular no key twice. */
  predicate Sorted(s: seq<Part>) {
    forall a, b :: 0 <= a < b < |s| ==> KeyLess(s[a].key, s[b].key)
  }

  predicate DistinctKeys(s: seq<Part>) {
    forall a, b :: 0 <= a < b < |s| ==> s[a].key != s[b].key
  }

  /** The entries in the order they are inserted into the map: user_id,
      api_key, the RFC 3339 timestamp, nonce, and user_data when present. */
  function Parts(data: AuthData, timestamp: string): (r: seq<Part>)
    ensures |r| == if data.userData.Some? then 5 else 4
  {
    [Part("user_id", data.userId), Part("api_key", data.apiKey), Part("timestamp", timestamp), Part("nonce", data.nonce)]
      + (if data.userData.Some? then [Part("user_data", data.userData.value)] else [])
  }

  /** The same entries in key order. */
  function Ordered(data: AuthData, timestamp: string): (r: seq<Part>)
    ensures multiset(r) == multiset(Parts(data, timestamp))
  {
    [Part("api_key", data.apiKey), Part("nonce", data.nonce), Part("timestamp", timestamp)]
      + (if data.userData.Some? then [Part("user_data", data.userData.value)] else [])
      + [Part("user_id", data.userId)]
  }

  /** `format!("{}={}")` of every entry, joined with "&". */
  function Render(parts: seq<Part>): (r: seq<string>)
    ensures |r| == |parts|
    ensures forall k :: 0 <= k < |parts| ==> r[k] == parts[k].key + "=" + parts[k].value
  {
    if parts == [] then [] else [parts[0].key + "=" + parts[0].value] + Render(parts[1..])
  }

  /** The signing string of the authentication fields: the entries in key order. */
  function SigningString(data: AuthData, timestamp: string): string {
    Join(Render(Ordered(data, timestamp)), "&")
  }

  /** The signing string spelled out: the `key=value` entries for api_key,
      nonce, timestamp, user_data when there is user data, and user_id, in
      that order, joined with "&". */
  lemma SigningStringSpelled(data: AuthData, timestamp: string)
    ensures SigningString(data, timestamp)
      == Join(["api_key=" + data.apiKey, "nonce=" + data.nonce, "timestamp=" + timestamp]
              + (if data.userData.Some? then ["user_data=" + data.userData.value] else [])
              + ["user_id=" + data.userId], "&")
  {
    var o := Ordered(data, timestamp);
    var r := Render(o);
    assert "api_key" + "=" == "api_key=" && "nonce" + "=" == "nonce=" && "timestamp" + "=" == "timestamp=";
    assert "user_data" + "=" == "user_data=" && "user_id" + "=" == "user_id=";
    var spelled := ["api_key=" + data.apiKey, "nonce=" + data.nonce, "timestamp=" + timestamp]
              + (if data.userData.Some? then ["user_data=" + data.userData.value] else [])
              + ["user_id=" + data.userId];
    assert |r| == |spelled|;
    forall i | 0 <= i < |r|
      ensures r[i] == spelled[i]
    {
      assert r[i] == o[i].key + "=" + o[i].value;
    }
    assert r == spelled;
  }

  lemma UserKeysOrdered()
    ensures KeyLess("user_data", "user_id")
  {
    assert "user_data"[1..] == "ser_data" && "user_id"[1..] == "ser_id";
    assert "ser_data"[1..] == "er_data" && "ser_id"[1..] == "er_id";
    assert "er_data"[1..] == "r_data" && "er_id"[1..] == "r_id";
    assert "r_data"[1..] == "_data" && "r_id"[1..] == "_id";
    assert "_data"[1..] == "data" && "_id"[1..] == "id";
  }

  /** Keys that increase from each entry to the next increase throughout. */
  lemma {:induction false} ChainSorted(s: seq<Part>)
    requires forall k :: 0 < k < |s| ==> KeyLess(s[k - 1].key, s[k].key)
    ensures Sorted(s)
    decreases |s|
  {
    if |s| > 1 {
      ChainSorted(s[1..]);
      forall b | 1 < b < |s|
        ensures KeyLess(s[0].key, s[b].key)
      {
        assert KeyLess(s[0].key, s[1].key) && KeyLess(s[1].key, s[b].key);
        KeyLessTransitive(s[0].key, s[1].key, s[b].key);
      }
      forall a, b | 0 <= a < b < |s|
        ensures KeyLess(s[a].key, s[b].key)
      {
        if a > 0 {
          assert s[a] == s[1..][a - 1] && s[b] == s[1..][b - 1];
        }
      }
    }
  }

  /** The key order is api_key, nonce, timestamp, user_data, user_id. */
  lemma OrderedSorted(data: AuthData, timestamp: string)
    ensures Sorted(Ordered(data, timestamp))
  {
    UserKeysOrdered();
    FixedKeysOrdered();
    var a, n, t := Part("api_key", data.apiKey), Part("nonce", data.nonce), Part("timestamp", timestamp);
    var last := Part("user_id", data.userId);
    OrderedShape(data, timestamp);
    if data.userData.Some? {
      ChainOfFive(a, n, t, Part("user_data", data.userData.value), last);
    } else {
      ChainOfFour(a, n, t, last);
    }
  }

  /** The key-ordered entries listed one by one. */
  lemma OrderedShape(data: AuthData, timestamp: string)
    ensures var a, n, t := Part("api_key", data.apiKey), Part("nonce", data.nonce), Part("timestamp", timestamp);
      var last := Part("user_id", data.userId);
      Ordered(data, timestamp)
        == if data.userData.Some? then [a, n, t, Part("user_data", data.userData.value), last] else [a, n, t, last]
  {
  }

  lemma ChainOfFour(p0: Part, p1: Part, p2: Part, p3: Part)
    requires KeyLess(p0.key, p1.key) && KeyLess(p1.key, p2.key) && KeyLess(p2.key, p3.key)
    ensures Sorted([p0, p1, p2, p3])
  {
    ChainSorted([p0, p1, p2, p3]);
  }

  lemma ChainOfFive(p0: Part, p1: Part, p2: Part, p3: Part, p4: Part)
    requires KeyLess(p0.key, p1.key) && KeyLess(p1.key, p2.key) && KeyLess(p2.key, p3.key) && KeyLess(p3.key, p4.key)
    ensures Sorted([p0, p1, p2, p3, p4])
  {
    ChainSorted([p0, p1, p2, p3, p4]);
  }

  lemma FixedKeysOrdered()
    ensures KeyLess("api_key", "nonce") && KeyLess("nonce", "timestamp")
    ensures KeyLess("timestamp", "user_data") && KeyLess("timestamp", "user_id")
  {
  }

  /** Two sorted arrangements of the same entries start with the same entry. */
  lemma SortedHeadsAgree(s: seq<Part>, t: seq<Part>)
    requires Sorted(s) && Sorted(t) && multiset(s) == multiset(t) && s != []
    ensures t != [] && s[0] == t[0]
  {
    assert s[0] in multiset(t);
    var k :| 0 <= k < |t| && t[k] == s[0];
    assert t[0] in multiset(s);
    var m :| 0 <= m < |s| && s[m] == t[0];
    if k != 0 {
      assert KeyLess(t[0].key, t[k].key);
      KeyLessIrreflexive(s[0].key);
      if m != 0 {
        KeyLessTransitive(s[0].key, s[m].key, t[k].key);
      }
      assert false;
    }
  }

  lemma TailsAgree(s: seq<Part>, t: seq<Part>)
    requires s != [] && t != [] && s[0] == t[0] && multiset(s) == multiset(t)
    ensures multiset(s[1..]) == multiset(t[1..])
  {
    assert s == [s[0]] + s[1..] && t == [t[0]] + t[1..];
    assert multiset(s) == multiset{s[0]} + multiset(s[1..]);
    assert multiset(t) == multiset{s[0]} + multiset(t[1..]);
    assert multiset(s[1..]) == multiset(s) - multiset{s[0]};
    assert multiset(t[1..]) == multiset(t) - multiset{s[0]};
  }

  /** Sorting is deterministic when keys differ: two sorted arrangements of
      the same entries are the same sequence. */
  lemma {:induction false} SortedUnique(s: seq<Part>, t: seq<Part>)
    requires Sorted(s) && Sorted(t) && multiset(s) == multiset(t)
    ensures s == t
    decreases |s|
  {
    if s == [] {
      assert |t| == |multiset(t)|;
    } else {
      SortedHeadsAgree(s, t);
      TailsAgree(s, t);
      SortedUnique(s[1..], t[1..]);
      assert s == [s[0]] + s[1..] && t == [t[0]] + t[1..];
    }
  }

  /** While `sorted[j]` moves left past the larger keys of the sorted
      prefix `sorted[..i + 1]`: both sides of position j are sorted, it is
      below everything to its right, and the left side is below the right. */
  predicate Inserting(s: seq<Part>, j: nat, i: nat)
    requires j <= i < |s|
  {
    && (forall a, b :: 0 <= a < b < j ==> KeyLess(s[a].key, s[b].key))
    && (forall a, b :: j < a < b <= i ==> KeyLess(s[a].key, s[b].key))
    && (forall b :: j < b <= i ==> KeyLess(s[j].key, s[b].key))
    && (forall a, b :: 0 <= a < j < b <= i ==> KeyLess(s[a].key, s[b].key))
  }

  /** Swapping the entry with a larger left neighbour keeps the shape. */
  lemma SwapStep(s: seq<Part>, j: nat, i: nat)
    requires 0 < j <= i < |s| && Inserting(s, j, i)
    requires KeyLess(s[j].key, s[j - 1].key)
    ensures Inserting(s[j - 1 := s[j]][j := s[j - 1]], j - 1, i)
  {
  }

  /** Once the left neighbour is smaller (or there is none), the prefix up to i is sorted. */
  lemma InsertDone(s: seq<Part>, j: nat, i: nat)
    requires j <= i < |s| && Inserting(s, j, i) && DistinctKeys(s)
    requires j > 0 ==> !KeyLess(s[j].key, s[j - 1].key)
    ensures forall a, b :: 0 <= a < b <= i ==> KeyLess(s[a].key, s[b].key)
  {
    if j > 0 {
      KeyLessTotal(s[j - 1].key, s[j].key);
    }
    forall a, b | 0 <= a < b <= i
      ensures KeyLess(s[a].key, s[b].key)
    {
      if b == j && a < j - 1 {
        KeyLessTransitive(s[a].key, s[j - 1].key, s[j].key);
      }
    }
  }

  /** Sorting `sorted_parts` by key, in place (an insertion sort: the
      standard library's sort is stable, and with distinct keys every
      correct sort gives the same result). */
  method SortByKey(parts: seq<Part>) returns (sorted: seq<Part>)
    requires DistinctKeys(parts)
    ensures Sorted(sorted) && multiset(sorted) == multiset(parts)
  {
    sorted := parts;
    var i := 0;
    while i < |sorted|
      invariant 0 <= i <= |sorted| == |parts|
      invariant multiset(sorted) == multiset(parts)
      invariant DistinctKeys(sorted)
      invariant forall a, b :: 0 <= a < b < i ==> KeyLess(sorted[a].key, sorted[b].key)
    {
      var j := i;
      while j > 0 && KeyLess(sorted[j].key, sorted[j - 1].key)
        invariant 0 <= j <= i < |sorted| == |parts|
        invariant multiset(sorted) == multiset(parts)
        invariant DistinctKeys(sorted)
        invariant Inserting(sorted, j, i)
      {
        SwapKeepsDistinct(sorted, j);
        SwapStep(sorted, j, i);
        sorted := sorted[j - 1 := sorted[j]][j := sorted[j - 1]];
        j := j - 1;
      }
      InsertDone(sorted, j, i);
      i := i + 1;
    }
  }

  lemma SwapKeepsDistinct(s: seq<Part>, j: nat)
    requires 0 < j < |s| && DistinctKeys(s)
    ensures DistinctKeys(s[j - 1 := s[j]][j := s[j - 1]])
  {
    var t := s[j - 1 := s[j]][j := s[j - 1]];
    forall a, b | 0 <= a < b < |t|
      ensures t[a].key != t[b].key
    {
      var a' := if a == j - 1 then j else if a == j then j - 1 else a;
      var b' := if b == j - 1 then j else if b == j then j - 1 else b;
      assert t[a] == s[a'] && t[b] == s[b'] && a' != b';
    }
  }

  lemma PartsDistinct(data: AuthData, timestamp: string)
    ensures DistinctKeys(Parts(data, timestamp))
  {
    OrderedSorted(data, timestamp);
    var o := Ordered(data, timestamp);
    forall a, b | 0 <= a < b < |o|
      ensures o[a].key != o[b].key
    {
      KeyLessIrreflexive(o[a].key);
    }
    CollectedDistinct(o, Parts(data, timestamp));
  }

  /** `create_signature_data`: the entries are collected from the map in
      whatever order it yields them (`collected`), sorted by key and joined.
      The result does not depend on that order. */
  method CreateSignatureData(data: AuthData, timestamp: string, collected: seq<Part>) returns (r: string)
    requires multiset(collected) == multiset(Parts(data, timestamp))
    ensures r == SigningString(data, timestamp)
  {
    PartsDistinct(data, timestamp);
    CollectedDistinct(Parts(data, timestamp), collected);
    var sorted := SortByKey(collected);
    OrderedSorted(data, timestamp);
    SortedUnique(sorted, Ordered(data, timestamp));
    r := Join(Render(sorted), "&");
  }

  /** Entries with distinct keys occur once each. */
  lemma CountOne(s: seq<Part>, i: nat)
    requires i < |s| && DistinctKeys(s)
    ensures multiset(s)[s[i]] == 1
  {
    assert s == s[..i] + [s[i]] + s[i + 1..];
    forall k | 0 <= k < |s| && k != i
      ensures s[k] != s[i]
    {
      if k < i {
        assert s[k].key != s[i].key;
      } else {
        assert s[i].key != s[k].key;
      }
    }
    assert s[i] !in s[..i];
    assert s[i] !in s[i + 1..];
  }

  /** An entry at two positions occurs at least twice. */
  lemma CountTwo(t: seq<Part>, a: nat, b: nat)
    requires a < b < |t| && t[a] == t[b]
    ensures multiset(t)[t[a]] >= 2
  {
    assert t == t[..a] + ([t[a]] + (t[a + 1..b] + ([t[b]] + t[b + 1..])));
  }

  /** Rearranging entries keeps their keys distinct. */
  lemma CollectedDistinct(s: seq<Part>, t: seq<Part>)
    requires DistinctKeys(s) && multiset(s) == multiset(t)
    ensures DistinctKeys(t)
  {
    forall a, b | 0 <= a < b < |t|
      ensures t[a].key != t[b].key
    {
      assert t[a] in multiset(s) && t[b] in multiset(s);
      var a' :| 0 <= a' < |s| && s[a'] == t[a];
      var b' :| 0 <= b' < |s| && s[b'] == t[b];
      if t[a].key == t[b].key {
        assert a' == b';
        CountTwo(t, a, b);
        CountOne(s, a');
        assert false;
      }
    }
  }

  /** `generate_signature`: base64 of the HMAC of the signing string under the secret key. */
  function GenerateSignature(secretKey: string, signingString: string, prim: Primitives): (r: string)
    ensures r == prim.base64(prim.hmac(Utf8(secretKey), Utf8(signingString)))
  {
    prim.base64(prim.hmac(Utf8(secretKey), Utf8(signingString)))
  }

  /** `i64::abs` of a difference of two timestamps, which chrono keeps far from overflow. */
  function Abs(x: int): nat {
    if x < 0 then -x else x
  }

  /** `authenticate_signature` at time `now`: the timestamp window is checked
      first, then the API key, then the signature. */
  function AuthenticateSignature(service: AuthService, data: AuthData, now: UtcTime, prim: Primitives): (r: Result<AuthenticatedClient, string>)
    ensures r.Ok? <==>
      && Abs(now.seconds - data.timestamp.seconds) <= service.timestampTolerance
      && data.apiKey in service.validApiKeys
      && data.signature == GenerateSignature(service.secretKey, SigningString(data, prim.rfc3339(data.timestamp)), prim)
    ensures Abs(now.seconds - data.timestamp.seconds) > service.timestampTolerance ==> r == Err(STALE_TIMESTAMP)
    ensures r.Ok? ==> r.value == AuthenticatedClient(data.userId, "signature", now)
  {
    if Abs(now.seconds - data.timestamp.seconds) > service.timestampTolerance then Err(STALE_TIMESTAMP)
    else if data.apiKey !in service.validApiKeys then Err(INVALID_API_KEY)
    else
      var expected := GenerateSignature(service.secretKey, SigningString(data, prim.rfc3339(data.timestamp)), prim);
      if data.signature != expected then Err(INVALID_SIGNATURE)
      else Ok(AuthenticatedClient(data.userId, "signature", now))
  }

  /** `authenticate_api_key`: the key alone decides. */
  function AuthenticateApiKey(service: AuthService, data: AuthData, now: UtcTime): (r: Result<AuthenticatedClient, string>)
    ensures r.Ok? <==> data.apiKey in service.validApiKeys
    ensures r.Err? ==> r.error == INVALID_API_KEY
    ensures r.Ok? ==> r.value == AuthenticatedClient(data.userId, "api_key", now)
  {
    if data.apiKey !in service.validApiKeys then Err(INVALID_API_KEY)
    else Ok(AuthenticatedClient(data.userId, "api_key", now))
  }

  /** `authenticate`: dispatch on the authentication type. */
  function Authenticate(service: AuthService, data: AuthData, now: UtcTime, prim: Primitives): (r: Result<AuthenticatedClient, string>)
    ensures data.authType == "signature" ==> r == AuthenticateSignature(service, data, now, prim)
    ensures data.authType == "api_key" ==> r == AuthenticateApiKey(service, data, now)
    ensures data.authType != "signature" && data.authType != "api_key" ==> r == Err(UNSUPPORTED_TYPE)
    ensures r.Ok? ==> r.value.userId == data.userId && r.value.authType == data.authType
  {
    if data.authType == "signature" then AuthenticateSignature(service, data, now, prim)
    else if data.authType == "api_key" then AuthenticateApiKey(service, data, now)
    else Err(UNSUPPORTED_TYPE)
  }

  /** `generate_client_signature`: the signature a client computes for its
      fields. The signature field plays no part in the signing string, so the
      result signs the very message that carries it. */
  function GenerateClientSignature(service: AuthService, userId: string, apiKey: string, timestamp: UtcTime, nonce: string,
                                   userData: Option<string>, prim: Primitives): (r: string)
    ensures var signed := AuthData("signature", userId, apiKey, timestamp, nonce, r, userData);
      r == GenerateSignature(service.secretKey, SigningString(signed, prim.rfc3339(timestamp)), prim)
  {
    var data := AuthData("signature", userId, apiKey, timestamp, nonce, "", userData);
    var r := GenerateSignature(service.secretKey, SigningString(data, prim.rfc3339(timestamp)), prim);
    var signed := AuthData("signature", userId, apiKey, timestamp, nonce, r, userData);
    assert Ordered(signed, prim.rfc3339(timestamp)) == Ordered(data, prim.rfc3339(timestamp));
    r
  }

  /** A client that signs its fields with the shared secret is accepted when
      its key is valid and its timestamp is within the tolerance. */
  lemma ClientSignatureAccepted(service: AuthService, userId: string, apiKey: string, timestamp: UtcTime, nonce: string,
                                userData: Option<string>, now: UtcTime, prim: Primitives)
    requires apiKey in service.validApiKeys && Abs(now.seconds - timestamp.seconds) <= service.timestampTolerance
    ensures var signature := GenerateClientSignature(service, userId, apiKey, timestamp, nonce, userData, prim);
      Authenticate(service, AuthData("signature", userId, apiKey, timestamp, nonce, signature, userData), now, prim)
        == Ok(AuthenticatedClient(userId, "signature", now))
  {
    var signature := GenerateClientSignature(service, userId, apiKey, timestamp, nonce, userData, prim);
    var unsigned := AuthData("signature", userId, apiKey, timestamp, nonce, "", userData);
    var signed := AuthData("signature", userId, apiKey, timestamp, nonce, signature, userData);
    assert Ordered(signed, prim.rfc3339(timestamp)) == Ordered(unsigned, prim.rfc3339(timestamp));
  }

  /** A tolerance of 2^63 seconds or more turns negative when cast, and then
      no signature is ever accepted. */
  lemma HugeToleranceRejectsSignatures(config: AuthConfig, data: AuthData, now: UtcTime, prim: Primitives)
    requires config.timestampTolerance >= 0x8000_0000_0000_0000
    ensures AuthenticateSignature(NewService(config), data, now, prim) == Err(STALE_TIMESTAMP)
  {
  }
}
