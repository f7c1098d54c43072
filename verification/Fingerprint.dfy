/**
 The canonical bytes of a cluster configuration, up to the hash.
 */
module Fingerprint {
  import opened Prelude
  import opened Radix
  import opened VipTable
  import L = Layout
  import O = Order
  import H = Health
  import Utf8

  type Word16 = n: nat | n < 0x1_0000
  type Word64 = n: nat | n < 0x1_0000_0000_0000_0000

  datatype Endpoint = S4(ip4: Word32, port: Word16) | S6(ip6: Word128, port: Word16, flow: Word32, scope: Word32)

  datatype Peer = Peer(id: Word64, raft: Endpoint, submit: Endpoint)

  datatype Config = Config(
    peers: seq<Peer>, vips: seq<Vip>,
    intervalMs: Word64, staleSecs: Option<Word64>,
    electionMin: Word64, electionMax: Word64, heartbeat: Word64,
    maxFrame: Word32, failoverSecs: Word32, failback: bool, failbackSecs: Word32)

  /** What of a configuration is hashed. */
  datatype Content = Content(peers: seq<Peer>, table: seq<Binding>, policy: Policy)

  datatype Policy = Policy(
    intervalMs: Word64, staleProbes: Word64, electionMin: Word64, electionMax: Word64, heartbeat: Word64,
    maxFrame: Word32, failoverTicks: Word64, failback: bool, failbackTicks: Word64)

  // ---- Effective values ----

  function StaleSeconds(c: Config): nat {
    match c.staleSecs
    case Some(seconds) => seconds
    case None => Max(3, 3 * Max(1, (c.intervalMs + 999) / 1000))
  }

  function StaleProbes(c: Config): Word64 {
    Max(1, Min(StaleSeconds(c) * 1000 / Max(1, c.intervalMs), U64_MAX))
  }

  /** A mapped IPv6 endpoint and its IPv4 form are one. */
  function CanonicalEndpoint(e: Endpoint): Endpoint {
    if e.S6? && e.ip6 / 0x1_0000_0000 == 0xFFFF then S4(e.ip6 % 0x1_0000_0000, e.port) else e
  }

  function CanonicalPeer(p: Peer): Peer {
    Peer(p.id, CanonicalEndpoint(p.raft), CanonicalEndpoint(p.submit))
  }

  function CanonicalPeers(peers: seq<Peer>): (r: seq<Peer>)
    ensures |r| == |peers| && forall i :: 0 <= i < |r| ==> r[i] == CanonicalPeer(peers[i])
  {
    seq(|peers|, i requires 0 <= i < |peers| => CanonicalPeer(peers[i]))
  }

  function PeerId(p: Peer): int {
    p.id
  }

  function PolicyOf(c: Config): Policy {
    Policy(c.intervalMs, StaleProbes(c), c.electionMin, c.electionMax, c.heartbeat, c.maxFrame,
           H.ProbeRounds(c.failoverSecs, c.intervalMs), c.failback,
           if c.failback then H.ProbeRounds(c.failbackSecs, c.intervalMs) else 0)
  }

  function ContentOf(c: Config): Content {
    Content(CanonicalPeers(O.Sorted(c.peers, PeerId)), Table(c.vips), PolicyOf(c))
  }

  // ---- Bytes ----

  const VERSION: Byte := 1
  const DOMAIN: string := "keepafloatd-cluster-config"

  function Field(bytes: seq<Byte>): seq<Byte> {
    Octets(|bytes|, 8) + bytes
  }

  function IpBytes(a: Address): seq<Byte> {
    match a
    case V4(n) => [4] + Octets(n, 4)
    case V6(n) => [6] + Octets(n, 16)
  }

  function SocketBytes(e: Endpoint): seq<Byte> {
    match e
    case S4(ip, port) => IpBytes(V4(ip)) + Octets(port, 2)
    case S6(ip, port, flow, scope) => IpBytes(V6(ip)) + Octets(port, 2) + Octets(flow, 4) + Octets(scope, 4)
  }

  function PeerBytes(p: Peer): seq<Byte> {
    Octets(p.id, 8) + SocketBytes(p.raft) + SocketBytes(p.submit)
  }

  function BindingBytes(b: Binding): seq<Byte> {
    IpBytes(b.address) + Octets(b.prefix, 1) + Field(Utf8.Bytes(b.interface))
  }

  function AllBytes<T>(items: seq<T>, encode: T -> seq<Byte>): seq<Byte> {
    if items == [] then [] else encode(items[0]) + AllBytes(items[1..], encode)
  }

  function Counted<T>(items: seq<T>, encode: T -> seq<Byte>): seq<Byte> {
    Octets(|items|, 8) + AllBytes(items, encode)
  }

  function PolicyFields(p: Policy): seq<seq<Byte>> {
    [Octets(p.intervalMs, 8), Octets(p.staleProbes, 8), Octets(p.electionMin, 8), Octets(p.electionMax, 8),
     Octets(p.heartbeat, 8), Octets(p.maxFrame, 4), Octets(p.failoverTicks, 8),
     Octets(if p.failback then 1 else 0, 1), Octets(p.failbackTicks, 8)]
  }

  const HEAD: seq<Byte> := Field(Utf8.Bytes(DOMAIN)) + [VERSION]

  function Encoded(c: Content): seq<Byte> {
    HEAD + Counted(c.peers, PeerBytes) + Counted(c.table, BindingBytes) + L.Joined(PolicyFields(c.policy))
  }

  // ---- No encoding starts another of its kind ----

  lemma Widths()
    ensures Capacity(Octet, 1) == 0x100 && Capacity(Octet, 2) == 0x1_0000 && Capacity(Octet, 4) == 0x1_0000_0000
    ensures Capacity(Octet, 8) == TWO_TO_64 && Capacity(Octet, 16) == 0x1_0000_0000_0000_0000_0000_0000_0000_0000
  {
    assert Capacity(Octet, 2) == 0x1_0000;
    assert Capacity(Octet, 4) == 0x1_0000_0000;
    assert Capacity(Octet, 6) == 0x1_0000_0000_0000;
    assert Capacity(Octet, 8) == TWO_TO_64;
    assert Capacity(Octet, 12) == 0x1_0000_0000_0000_0000_0000_0000;
  }

  lemma Regroup(a: seq<Byte>, b: seq<Byte>, s: seq<Byte>)
    ensures a + b + s == a + (b + s)
  {}

  lemma TagPrefix(x: Byte, y: Byte, s: seq<Byte>, t: seq<Byte>)
    requires [x] + s == [y] + t
    ensures x == y && s == t
  {
    assert ([x] + s)[0] == x && ([y] + t)[0] == y && ([x] + s)[1..] == s && ([y] + t)[1..] == t;
  }

  lemma IpPrefix(a: Address, b: Address, s: seq<Byte>, t: seq<Byte>)
    requires IpBytes(a) + s == IpBytes(b) + t
    ensures a == b && s == t
  {
    Widths();
    var x := if a.V4? then Octets(a.v4, 4) else Octets(a.v6, 16);
    var y := if b.V4? then Octets(b.v4, 4) else Octets(b.v6, 16);
    hide Octets, Capacity;
    Regroup([if a.V4? then 4 else 6], x, s);
    Regroup([if b.V4? then 4 else 6], y, t);
    TagPrefix(if a.V4? then 4 else 6, if b.V4? then 4 else 6, x + s, y + t);
    if a.V4? { OctetsPrefix(a.v4, b.v4, 4, s, t); } else { OctetsPrefix(a.v6, b.v6, 16, s, t); }
  }

  lemma FieldPrefix(a: seq<Byte>, b: seq<Byte>, s: seq<Byte>, t: seq<Byte>)
    requires |a| < TWO_TO_64 && |b| < TWO_TO_64 && Field(a) + s == Field(b) + t
    ensures a == b && s == t
  {
    Widths();
    hide Octets, Capacity;
    Regroup(Octets(|a|, 8), a, s);
    Regroup(Octets(|b|, 8), b, t);
    OctetsPrefix(|a|, |b|, 8, a + s, b + t);
    assert a == (a + s)[..|a|] && b == (b + t)[..|b|] && s == (a + s)[|a|..] && t == (b + t)[|b|..];
  }

  lemma SocketPrefix(a: Endpoint, b: Endpoint, s: seq<Byte>, t: seq<Byte>)
    requires SocketBytes(a) + s == SocketBytes(b) + t
    ensures a == b && s == t
  {
    Widths();
    hide Octets, Capacity, IpBytes;
    var p, q := Octets(a.port, 2), Octets(b.port, 2);
    var x := if a.S4? then s else Octets(a.flow, 4) + (Octets(a.scope, 4) + s);
    var y := if b.S4? then t else Octets(b.flow, 4) + (Octets(b.scope, 4) + t);
    var i, j := if a.S4? then V4(a.ip4) else V6(a.ip6), if b.S4? then V4(b.ip4) else V6(b.ip6);
    assert SocketBytes(a) + s == IpBytes(i) + (p + x);
    assert SocketBytes(b) + t == IpBytes(j) + (q + y);
    IpPrefix(i, j, p + x, q + y);
    OctetsPrefix(a.port, b.port, 2, x, y);
    if a.S6? {
      OctetsPrefix(a.flow, b.flow, 4, Octets(a.scope, 4) + s, Octets(b.scope, 4) + t);
      OctetsPrefix(a.scope, b.scope, 4, s, t);
    }
  }

  lemma PeerPrefix(a: Peer, b: Peer, s: seq<Byte>, t: seq<Byte>)
    requires PeerBytes(a) + s == PeerBytes(b) + t
    ensures a == b && s == t
  {
    Widths();
    hide Octets, Capacity, SocketBytes;
    assert PeerBytes(a) + s == Octets(a.id, 8) + (SocketBytes(a.raft) + (SocketBytes(a.submit) + s));
    assert PeerBytes(b) + t == Octets(b.id, 8) + (SocketBytes(b.raft) + (SocketBytes(b.submit) + t));
    OctetsPrefix(
      a.id, b.id, 8,
      SocketBytes(a.raft) + (SocketBytes(a.submit) + s), SocketBytes(b.raft) + (SocketBytes(b.submit) + t));
    SocketPrefix(a.raft, b.raft, SocketBytes(a.submit) + s, SocketBytes(b.submit) + t);
    SocketPrefix(a.submit, b.submit, s, t);
  }

  /** A prefix is one byte and a name is short. */
  predicate Encodable(b: Binding) {
    b.prefix < 0x100 && |Utf8.Bytes(b.interface)| < TWO_TO_64
  }

  lemma BindingPrefix(a: Binding, b: Binding, s: seq<Byte>, t: seq<Byte>)
    requires Encodable(a) && Encodable(b) && BindingBytes(a) + s == BindingBytes(b) + t
    ensures a == b && s == t
  {
    Widths();
    hide Octets, Capacity, IpBytes, Field, Utf8.Bytes;
    var x, y := Utf8.Bytes(a.interface), Utf8.Bytes(b.interface);
    assert BindingBytes(a) + s == IpBytes(a.address) + (Octets(a.prefix, 1) + (Field(x) + s));
    assert BindingBytes(b) + t == IpBytes(b.address) + (Octets(b.prefix, 1) + (Field(y) + t));
    IpPrefix(a.address, b.address, Octets(a.prefix, 1) + (Field(x) + s), Octets(b.prefix, 1) + (Field(y) + t));
    OctetsPrefix(a.prefix, b.prefix, 1, Field(x) + s, Field(y) + t);
    FieldPrefix(x, y, s, t);
    Utf8.BytesAreExact(a.interface, b.interface);
  }

  /** No encoding of an item of one list starts that of an item of the other. */
  ghost predicate Unambiguous<T(!new)>(encode: T -> seq<Byte>, a: seq<T>, b: seq<T>) {
    forall x, y, s, t :: x in a && y in b && encode(x) + s == encode(y) + t ==> x == y && s == t
  }

  lemma {:induction false} AllPrefix<T(!new)>(a: seq<T>, b: seq<T>, encode: T -> seq<Byte>, s: seq<Byte>, t: seq<Byte>)
    requires |a| == |b| && Unambiguous(encode, a, b) && AllBytes(a, encode) + s == AllBytes(b, encode) + t
    ensures a == b && s == t
    decreases |a|
  {
    if a == [] {
      assert AllBytes(a, encode) + s == s && AllBytes(b, encode) + t == t;
    } else {
      Regroup(encode(a[0]), AllBytes(a[1..], encode), s);
      Regroup(encode(b[0]), AllBytes(b[1..], encode), t);
      assert a[0] in a && b[0] in b;
      assert encode(a[0]) + (AllBytes(a[1..], encode) + s) == encode(b[0]) + (AllBytes(b[1..], encode) + t);
      AllPrefix(a[1..], b[1..], encode, s, t);
      assert a == [a[0]] + a[1..] && b == [b[0]] + b[1..];
    }
  }

  lemma CountedPrefix<T(!new)>(a: seq<T>, b: seq<T>, encode: T -> seq<Byte>, s: seq<Byte>, t: seq<Byte>)
    requires |a| < TWO_TO_64 && |b| < TWO_TO_64 && Unambiguous(encode, a, b)
    requires Counted(a, encode) + s == Counted(b, encode) + t
    ensures a == b && s == t
  {
    Widths();
    hide Octets, Capacity, Unambiguous;
    Regroup(Octets(|a|, 8), AllBytes(a, encode), s);
    Regroup(Octets(|b|, 8), AllBytes(b, encode), t);
    OctetsPrefix(|a|, |b|, 8, AllBytes(a, encode) + s, AllBytes(b, encode) + t);
    AllPrefix(a, b, encode, s, t);
  }

  lemma PolicyFieldsAre(p: Policy)
    ensures var f := PolicyFields(p);
            && |f| == 9 && f[0] == Octets(p.intervalMs, 8) && f[1] == Octets(p.staleProbes, 8)
            && f[2] == Octets(p.electionMin, 8) && f[3] == Octets(p.electionMax, 8) && f[4] == Octets(p.heartbeat, 8)
            && f[5] == Octets(p.maxFrame, 4) && f[6] == Octets(p.failoverTicks, 8)
            && f[7] == Octets(if p.failback then 1 else 0, 1) && f[8] == Octets(p.failbackTicks, 8)
  {
    hide Octets;
  }

  const POLICY_WIDTHS: seq<nat> := [8, 8, 8, 8, 8, 4, 8, 1, 8]

  lemma PolicyIsExact(a: Policy, b: Policy)
    requires L.Joined(PolicyFields(a)) == L.Joined(PolicyFields(b))
    ensures a == b
  {
    PolicyFieldsAre(a);
    PolicyFieldsAre(b);
    hide PolicyFields, L.Joined, L.Cut, Octets;
    L.JoinedCuts(PolicyFields(a), POLICY_WIDTHS);
    L.JoinedCuts(PolicyFields(b), POLICY_WIDTHS);
    SamePolicy(a, b);
  }

  lemma SamePolicy(a: Policy, b: Policy)
    requires PolicyFields(a) == PolicyFields(b)
    ensures a == b
  {
    PolicyFieldsAre(a);
    PolicyFieldsAre(b);
    Widths();
    hide PolicyFields, Octets, Capacity;
    SameNumber(a.intervalMs, b.intervalMs, 8);
    SameNumber(a.staleProbes, b.staleProbes, 8);
    SameNumber(a.electionMin, b.electionMin, 8);
    SameNumber(a.electionMax, b.electionMax, 8);
    SameNumber(a.heartbeat, b.heartbeat, 8);
    SameNumber(a.maxFrame, b.maxFrame, 4);
    SameNumber(a.failoverTicks, b.failoverTicks, 8);
    SameNumber(if a.failback then 1 else 0, if b.failback then 1 else 0, 1);
    SameNumber(a.failbackTicks, b.failbackTicks, 8);
  }

  lemma SameNumber(x: nat, y: nat, width: nat)
    requires x < Capacity(Octet, width) && y < Capacity(Octet, width) && Octets(x, width) == Octets(y, width)
    ensures x == y
  {
    NumberOf(x, width);
    NumberOf(y, width);
  }

  ghost predicate EncodableContent(c: Content) {
    |c.peers| < TWO_TO_64 && |c.table| < TWO_TO_64 && forall b :: b in c.table ==> Encodable(b)
  }

  lemma PeersUnambiguous(a: seq<Peer>, b: seq<Peer>)
    ensures Unambiguous(PeerBytes, a, b)
  {
    forall p, q, s, t | p in a && q in b && PeerBytes(p) + s == PeerBytes(q) + t ensures p == q && s == t {
      PeerPrefix(p, q, s, t);
    }
  }

  lemma BindingsUnambiguous(a: seq<Binding>, b: seq<Binding>)
    requires (forall x :: x in a ==> Encodable(x)) && (forall x :: x in b ==> Encodable(x))
    ensures Unambiguous(BindingBytes, a, b)
  {
    forall p, q, s, t | p in a && q in b && BindingBytes(p) + s == BindingBytes(q) + t ensures p == q && s == t {
      BindingPrefix(p, q, s, t);
    }
  }

  /** The bytes after the fixed head. */
  function Body(c: Content): seq<Byte> {
    Counted(c.peers, PeerBytes) + (Counted(c.table, BindingBytes) + L.Joined(PolicyFields(c.policy)))
  }

  lemma SameBody(a: Content, b: Content)
    requires Encoded(a) == Encoded(b)
    ensures Body(a) == Body(b)
  {
    hide Counted, L.Joined, PolicyFields, Field, Utf8.Bytes;
    assert Encoded(a)[|HEAD|..] == Body(a);
    assert Encoded(b)[|HEAD|..] == Body(b);
  }

  /** Different contents have different bytes. */
  lemma EncodingIsExact(a: Content, b: Content)
    requires EncodableContent(a) && EncodableContent(b) && Encoded(a) == Encoded(b)
    ensures a == b
  {
    hide Encoded, Counted, L.Joined, PolicyFields, Unambiguous, Encodable;
    SameBody(a, b);
    PeersUnambiguous(a.peers, b.peers);
    BindingsUnambiguous(a.table, b.table);
    CountedPrefix(a.peers, b.peers, PeerBytes,
                  Counted(a.table, BindingBytes) + L.Joined(PolicyFields(a.policy)),
                  Counted(b.table, BindingBytes) + L.Joined(PolicyFields(b.policy)));
    CountedPrefix(a.table, b.table, BindingBytes, L.Joined(PolicyFields(a.policy)), L.Joined(PolicyFields(b.policy)));
    PolicyIsExact(a.policy, b.policy);
  }

  // ---- Whole configurations ----

  /** What loading guarantees: distinct peer ids, a normalized VIP list, lists that fit in memory. */
  ghost predicate Loaded(c: Config) {
    && O.DistinctKeys(c.peers, PeerId) && |c.peers| < TWO_TO_64
    && Acceptable(c.vips) && Normalized(c.vips) == c.vips && |c.vips| < TWO_TO_64
  }

  /** Peers up to order and address notation, the effective VIP table, and every effective setting. */
  ghost predicate SameCluster(a: Config, b: Config) {
    && O.SameElements(CanonicalPeers(a.peers), CanonicalPeers(b.peers))
    && Table(a.vips) == Table(b.vips)
    && PolicyOf(a) == PolicyOf(b)
  }

  lemma PeersInOrder(peers: seq<Peer>)
    requires O.DistinctKeys(peers, PeerId)
    ensures var sorted := CanonicalPeers(O.Sorted(peers, PeerId));
            O.Increasing(sorted, PeerId) && O.SameElements(sorted, CanonicalPeers(peers))
  {
    var s := O.Sorted(peers, PeerId);
    O.SortedIncreasing(peers, PeerId);
    forall p ensures p in CanonicalPeers(s) <==> p in CanonicalPeers(peers) {
      if p in CanonicalPeers(s) {
        var i :| 0 <= i < |s| && CanonicalPeers(s)[i] == p;
        O.SortedMembers(peers, PeerId, s[i]);
        var j :| 0 <= j < |peers| && peers[j] == s[i];
        assert CanonicalPeers(peers)[j] == p;
      }
      if p in CanonicalPeers(peers) {
        var j :| 0 <= j < |peers| && CanonicalPeers(peers)[j] == p;
        O.SortedMembers(peers, PeerId, peers[j]);
        var i :| 0 <= i < |s| && s[i] == peers[j];
        assert CanonicalPeers(s)[i] == p;
      }
    }
  }

  lemma LoadedIsEncodable(c: Config)
    requires Loaded(c)
    ensures EncodableContent(ContentOf(c))
  {
    O.SortedLength(c.peers, PeerId);
    forall b | b in Table(c.vips) ensures Encodable(b) {
      var i :| 0 <= i < |c.vips| && Table(c.vips)[i] == b;
      assert Valid(c.vips[i]);
      NormalizedIsCanonical(c.vips, i);
    }
  }

  lemma NormalizedIsCanonical(vips: seq<Vip>, i: nat)
    requires Normalized(vips) == vips && i < |vips|
    ensures Canonical(vips[i]) == vips[i]
  {
    var v := NormalizedMember(vips, vips[i]);
    CanonicalTwice(v);
  }

  /**
   Two loaded configurations have the same canonical bytes exactly when they describe the same
   cluster: peers up to order and address notation, effective VIP table, probe rounds, Raft timing,
   frame cap, and effective failover and failback delays.
   */
  lemma BytesIdentifyTheCluster(a: Config, b: Config)
    requires Loaded(a) && Loaded(b)
    ensures Encoded(ContentOf(a)) == Encoded(ContentOf(b)) <==> SameCluster(a, b)
  {
    SamePeers(a.peers, b.peers);
    LoadedIsEncodable(a);
    LoadedIsEncodable(b);
    hide Encoded, EncodableContent, Table, PolicyOf, Loaded, CanonicalPeers, O.Sorted, O.SameElements;
    if Encoded(ContentOf(a)) == Encoded(ContentOf(b)) {
      EncodingIsExact(ContentOf(a), ContentOf(b));
    }
  }

  /** Sorted canonical peers are equal exactly when the peers are, up to order and notation. */
  lemma SamePeers(a: seq<Peer>, b: seq<Peer>)
    requires O.DistinctKeys(a, PeerId) && O.DistinctKeys(b, PeerId)
    ensures CanonicalPeers(O.Sorted(a, PeerId)) == CanonicalPeers(O.Sorted(b, PeerId))
            <==> O.SameElements(CanonicalPeers(a), CanonicalPeers(b))
  {
    PeersInOrder(a);
    PeersInOrder(b);
    var x, y := CanonicalPeers(O.Sorted(a, PeerId)), CanonicalPeers(O.Sorted(b, PeerId));
    hide CanonicalPeers, O.Sorted, O.Increasing;
    if O.SameElements(CanonicalPeers(a), CanonicalPeers(b)) {
      O.IncreasingIsDetermined(x, y, PeerId);
    }
  }

  // ---- Writing the bytes ----

  lemma {:induction false} AllStep<T>(items: seq<T>, k: nat, encode: T -> seq<Byte>)
    requires k < |items|
    ensures AllBytes(items[..k + 1], encode) == AllBytes(items[..k], encode) + encode(items[k])
    decreases |items|
  {
    if k > 0 {
      AllStep(items[1..], k - 1, encode);
      assert items[..k][1..] == items[1..][..k - 1] && items[..k + 1][1..] == items[1..][..k];
    }
  }

  lemma Appends<T>(start: seq<Byte>, items: seq<T>, k: nat, encode: T -> seq<Byte>)
    requires k < |items|
    ensures start + AllBytes(items[..k], encode) + encode(items[k]) == start + AllBytes(items[..k + 1], encode)
  {
    AllStep(items, k, encode);
  }

  class CanonicalBytes {
    var bytes: seq<Byte>

    constructor ()
      ensures bytes == HEAD
    {
      bytes := Field(Utf8.Bytes(DOMAIN)) + [VERSION];
    }

    /** A big-endian number of `width` bytes. */
    method PutNumber(n: nat, width: nat)
      modifies this
      ensures bytes == old(bytes) + Octets(n, width)
    {
      bytes := bytes + Octets(n, width);
    }

    method PutText(text: string)
      modifies this
      ensures bytes == old(bytes) + Field(Utf8.Bytes(text))
    {
      bytes := bytes + Octets(|Utf8.Bytes(text)|, 8);
      bytes := bytes + Utf8.Bytes(text);
    }

    method PutIp(a: Address)
      modifies this
      ensures bytes == old(bytes) + IpBytes(a)
    {
      match a {
        case V4(n) => bytes := bytes + [4]; PutNumber(n, 4);
        case V6(n) => bytes := bytes + [6]; PutNumber(n, 16);
      }
    }

    method PutSocket(e: Endpoint)
      modifies this
      ensures bytes == old(bytes) + SocketBytes(e)
    {
      match e {
        case S4(ip, port) =>
          PutIp(V4(ip));
          PutNumber(port, 2);
        case S6(ip, port, flow, scope) =>
          PutIp(V6(ip));
          PutNumber(port, 2);
          PutNumber(flow, 4);
          PutNumber(scope, 4);
      }
    }

    method PutPeer(p: Peer)
      modifies this
      ensures bytes == old(bytes) + PeerBytes(CanonicalPeer(p))
    {
      hide Octets, SocketBytes;
      PutNumber(p.id, 8);
      PutSocket(CanonicalEndpoint(p.raft));
      PutSocket(CanonicalEndpoint(p.submit));
    }

    method PutBinding(b: Binding)
      modifies this
      ensures bytes == old(bytes) + BindingBytes(b)
    {
      hide Octets, IpBytes, Field;
      PutIp(b.address);
      PutNumber(b.prefix, 1);
      PutText(b.interface);
    }

    method PutPeers(peers: seq<Peer>)
      modifies this
      ensures bytes == old(bytes) + Counted(CanonicalPeers(peers), PeerBytes)
    {
      ghost var all := CanonicalPeers(peers);
      PutNumber(|peers|, 8);
      ghost var start := bytes;
      assert start == start + AllBytes(all[..0], PeerBytes);
      hide PeerBytes, Octets, AllBytes;
      for k := 0 to |peers|
        invariant bytes == start + AllBytes(all[..k], PeerBytes)
      {
        PutPeer(peers[k]);
        Appends(start, all, k, PeerBytes);
      }
      assert all[..|peers|] == all;
      Regroup(old(bytes), Octets(|all|, 8), AllBytes(all, PeerBytes));
    }

    method PutTable(table: seq<Binding>)
      modifies this
      ensures bytes == old(bytes) + Counted(table, BindingBytes)
    {
      PutNumber(|table|, 8);
      ghost var start := bytes;
      assert start == start + AllBytes(table[..0], BindingBytes);
      hide BindingBytes, Octets, AllBytes;
      for k := 0 to |table|
        invariant bytes == start + AllBytes(table[..k], BindingBytes)
      {
        PutBinding(table[k]);
        Appends(start, table, k, BindingBytes);
      }
      assert table[..|table|] == table;
      Regroup(old(bytes), Octets(|table|, 8), AllBytes(table, BindingBytes));
    }

    /** The next of several numbers written after `start`. */
    method PutField(n: nat, width: nat, ghost start: seq<Byte>, ghost fields: seq<seq<Byte>>, ghost k: nat)
      requires k < |fields| && fields[k] == Octets(n, width) && bytes == start + L.Joined(fields[..k])
      modifies this
      ensures bytes == start + L.Joined(fields[..k + 1])
    {
      PutNumber(n, width);
      Joins(start, fields, k);
    }

    method PutPolicy(p: Policy)
      modifies this
      ensures bytes == old(bytes) + L.Joined(PolicyFields(p))
    {
      ghost var start, fields := bytes, PolicyFields(p);
      assert start == start + L.Joined(fields[..0]);
      PolicyFieldsAre(p);
      hide PolicyFields, L.Joined, Octets;
      PutField(p.intervalMs, 8, start, fields, 0);
      PutField(p.staleProbes, 8, start, fields, 1);
      PutField(p.electionMin, 8, start, fields, 2);
      PutField(p.electionMax, 8, start, fields, 3);
      PutField(p.heartbeat, 8, start, fields, 4);
      PutField(p.maxFrame, 4, start, fields, 5);
      PutField(p.failoverTicks, 8, start, fields, 6);
      PutField(if p.failback then 1 else 0, 1, start, fields, 7);
      PutField(p.failbackTicks, 8, start, fields, 8);
      assert fields[..9] == fields;
    }

    /** The whole buffer, ready for the hash. */
    method PutConfig(c: Config)
      requires bytes == HEAD
      modifies this
      ensures bytes == Encoded(ContentOf(c))
    {
      hide Counted, L.Joined, PolicyFields, Table, PolicyOf, O.Sorted, Field, Utf8.Bytes;
      PutPeers(O.Sorted(c.peers, PeerId));
      PutTable(Table(c.vips));
      PutPolicy(PolicyOf(c));
    }
  }

  lemma Joins(start: seq<Byte>, fields: seq<seq<Byte>>, k: nat)
    requires k < |fields|
    ensures start + L.Joined(fields[..k]) + fields[k] == start + L.Joined(fields[..k + 1])
  {
    L.JoinedStep(fields, k);
  }
}
