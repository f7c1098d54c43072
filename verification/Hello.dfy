/** The fixed-size greeting that opens every authenticated connection. */
module Hello {
  import opened Prelude
  import opened Layout
  import opened Radix

  const MAGIC: seq<Byte> := [75, 65, 70, 68, 65, 85, 84, 72]
  const VERSION: Byte := 3
  const HELLO_BYTES := 110

  datatype Listener = Raft | Submit

  datatype Peer = Peer(id: nat, epoch: Option<nat>, supportsV2: bool, bootNonce: Option<seq<Byte>>)

  datatype Denial = Truncated | WrongMagic | WrongVersion | WrongHeader | WrongDestination | WrongEpoch | WrongNonce

  datatype Result = Ok(bytes: seq<Byte>, peer: Peer) | Err(denial: Denial)

  function Code(listener: Listener): Byte {
    if listener.Raft? then 1 else 2
  }

  function Flag(b: bool): (flag: Byte)
    ensures flag <= 1
  {
    if b then 1 else 0
  }

  function Zeros(n: nat): (bytes: seq<Byte>)
    ensures |bytes| == n
  {
    seq(n, _ => 0)
  }

  predicate ValidPeer(p: Peer) {
    && p.id < Capacity(Octet, 8)
    && (p.epoch.Some? ==> p.epoch.value < Capacity(Octet, 16))
    && (p.bootNonce.Some? ==> |p.bootNonce.value| == 32)
  }

  function EpochBytes(p: Peer): (bytes: seq<Byte>)
    ensures |bytes| == 16
  {
    Octets(if p.epoch.None? then 0 else p.epoch.value, 16)
  }

  function NonceBytes(p: Peer): (bytes: seq<Byte>)
    requires ValidPeer(p)
    ensures |bytes| == 32
  {
    if p.bootNonce.None? then Zeros(32) else p.bootNonce.value
  }

  /** Magic, version, listener, role, capabilities, sender, target, nonce, epoch and boot nonce with their flags. */
  const WIDTHS: seq<nat> := [8, 1, 1, 1, 1, 8, 8, 32, 1, 16, 1, 32]

  function Fields(p: Peer, target: nat, listener: Listener, role: Byte, nonce: seq<Byte>): seq<seq<Byte>>
    requires ValidPeer(p)
  {
    [MAGIC, [VERSION], [Code(listener)], [role], [6 + Flag(p.supportsV2)],
     Octets(p.id, 8), Octets(target, 8), nonce,
     [Flag(p.epoch.Some?)], EpochBytes(p), [Flag(p.bootNonce.Some?)], NonceBytes(p)]
  }

  lemma FieldsAre(p: Peer, target: nat, listener: Listener, role: Byte, nonce: seq<Byte>)
    requires ValidPeer(p)
    ensures var f := Fields(p, target, listener, role, nonce);
            && |f| == 12 && f[0] == MAGIC && f[1] == [VERSION] && f[2] == [Code(listener)] && f[3] == [role]
            && f[4] == [6 + Flag(p.supportsV2)] && f[5] == Octets(p.id, 8) && f[6] == Octets(target, 8) && f[7] == nonce
            && f[8] == [Flag(p.epoch.Some?)] && f[9] == EpochBytes(p)
            && f[10] == [Flag(p.bootNonce.Some?)] && f[11] == NonceBytes(p)
  {
    hide Octets, EpochBytes, NonceBytes, Code, Flag;
  }

  function Greeting(p: Peer, target: nat, listener: Listener, role: Byte, nonce: seq<Byte>): seq<Byte>
    requires ValidPeer(p)
  {
    Joined(Fields(p, target, listener, role, nonce))
  }

  function Slices(bytes: seq<Byte>): seq<seq<Byte>>
    requires |bytes| == HELLO_BYTES
  {
    [bytes[0..8], bytes[8..9], bytes[9..10], bytes[10..11], bytes[11..12],
     bytes[12..20], bytes[20..28], bytes[28..60],
     bytes[60..61], bytes[61..77], bytes[77..78], bytes[78..110]]
  }

  lemma Offsets()
    ensures Sum(WIDTHS) == HELLO_BYTES && WIDTHS[..12] == WIDTHS
    ensures Sum(WIDTHS[..0]) == 0 && Sum(WIDTHS[..1]) == 8 && Sum(WIDTHS[..2]) == 9 && Sum(WIDTHS[..3]) == 10
    ensures Sum(WIDTHS[..4]) == 11 && Sum(WIDTHS[..5]) == 12 && Sum(WIDTHS[..6]) == 20 && Sum(WIDTHS[..7]) == 28
    ensures Sum(WIDTHS[..8]) == 60 && Sum(WIDTHS[..9]) == 61 && Sum(WIDTHS[..10]) == 77 && Sum(WIDTHS[..11]) == 78
  {
    hide Sum;
    assert Sum(WIDTHS[..0]) == 0 by { SumEmpty(); }
    SumStep(WIDTHS, 0); SumStep(WIDTHS, 1); SumStep(WIDTHS, 2); SumStep(WIDTHS, 3);
    SumStep(WIDTHS, 4); SumStep(WIDTHS, 5); SumStep(WIDTHS, 6); SumStep(WIDTHS, 7);
    SumStep(WIDTHS, 8); SumStep(WIDTHS, 9); SumStep(WIDTHS, 10); SumStep(WIDTHS, 11);
    assert WIDTHS[..12] == WIDTHS;
  }

  lemma SumEmpty()
    ensures Sum(WIDTHS[..0]) == 0
  {}

  /** The offsets are those of consecutive fields. */
  lemma SlicesAreFields(bytes: seq<Byte>)
    requires |bytes| == HELLO_BYTES
    ensures Sum(WIDTHS) == HELLO_BYTES && Cut(bytes, WIDTHS) == Slices(bytes)
  {
    Offsets();
    hide Sum, Cut;
    SliceAt(bytes, 0, 0, 8); SliceAt(bytes, 1, 8, 1); SliceAt(bytes, 2, 9, 1); SliceAt(bytes, 3, 10, 1);
    SliceAt(bytes, 4, 11, 1); SliceAt(bytes, 5, 12, 8); SliceAt(bytes, 6, 20, 8); SliceAt(bytes, 7, 28, 32);
    SliceAt(bytes, 8, 60, 1); SliceAt(bytes, 9, 61, 16); SliceAt(bytes, 10, 77, 1); SliceAt(bytes, 11, 78, 32);
    var fields := Cut(bytes, WIDTHS);
    assert fields == [fields[0], fields[1], fields[2], fields[3], fields[4], fields[5],
                      fields[6], fields[7], fields[8], fields[9], fields[10], fields[11]];
  }

  lemma SliceAt(bytes: seq<Byte>, k: nat, at: nat, width: nat)
    requires |bytes| == HELLO_BYTES == Sum(WIDTHS) && k < 12 && Sum(WIDTHS[..k]) == at && WIDTHS[k] == width
    ensures at + width <= HELLO_BYTES && Cut(bytes, WIDTHS)[k] == bytes[at..at + width]
  {
    hide Sum, Cut;
    CutAt(bytes, WIDTHS, k);
  }

  lemma GreetingSlices(p: Peer, target: nat, listener: Listener, role: Byte, nonce: seq<Byte>)
    requires ValidPeer(p) && |nonce| == 32
    ensures |Greeting(p, target, listener, role, nonce)| == HELLO_BYTES
    ensures Slices(Greeting(p, target, listener, role, nonce)) == Fields(p, target, listener, role, nonce)
  {
    Offsets();
    hide Sum, Cut, Joined;
    JoinedCuts(Fields(p, target, listener, role, nonce), WIDTHS);
    SlicesAreFields(Greeting(p, target, listener, role, nonce));
  }

  lemma SlicesMakeGreeting(bytes: seq<Byte>, p: Peer, target: nat, listener: Listener, role: Byte, nonce: seq<Byte>)
    requires ValidPeer(p) && |bytes| == HELLO_BYTES && Slices(bytes) == Fields(p, target, listener, role, nonce)
    ensures bytes == Greeting(p, target, listener, role, nonce)
  {
    hide Sum, Cut, Joined;
    SlicesAreFields(bytes);
    CutJoins(bytes, WIDTHS);
  }

  /** The first `k` fields are in place and fill the first `at` bytes. */
  ghost predicate Written(a: array<Byte>, at: nat, fields: seq<seq<Byte>>, k: nat)
    reads a
  {
    k <= |fields| && at <= a.Length && a[..at] == Joined(fields[..k])
  }

  lemma NothingWritten(a: array<Byte>, fields: seq<seq<Byte>>)
    ensures Written(a, 0, fields, 0)
  {
    assert a[..0] == Joined(fields[..0]);
  }

  lemma AllWritten(a: array<Byte>, fields: seq<seq<Byte>>)
    requires Written(a, a.Length, fields, |fields|)
    ensures a[..] == Joined(fields)
  {
    assert fields[..|fields|] == fields && a[..a.Length] == a[..];
  }

  method Place(a: array<Byte>, at: nat, src: seq<Byte>, ghost fields: seq<seq<Byte>>, ghost k: nat)
    requires k < |fields| && src == fields[k] && at + |src| <= a.Length && Written(a, at, fields, k)
    modifies a
    ensures Written(a, at + |src|, fields, k + 1)
  {
    for i := 0 to |src|
      invariant a[..at + i] == Joined(fields[..k]) + src[..i]
    {
      a[at + i] := src[i];
      assert a[..at + i + 1] == a[..at + i] + [src[i]];
    }
    JoinedStep(fields, k);
  }

  method WriteHeader(a: array<Byte>, listener: Listener, role: Byte, supportsV2: bool, ghost fields: seq<seq<Byte>>)
    requires a.Length == HELLO_BYTES && |fields| == 12 && Written(a, 0, fields, 0)
    requires fields[0] == MAGIC && fields[1] == [VERSION] && fields[2] == [Code(listener)] && fields[3] == [role]
    requires fields[4] == [6 + Flag(supportsV2)]
    modifies a
    ensures Written(a, 12, fields, 5)
  {
    hide Written, Code, Flag;
    Place(a, 0, MAGIC, fields, 0);
    Place(a, 8, [VERSION], fields, 1);
    Place(a, 9, [Code(listener)], fields, 2);
    Place(a, 10, [role], fields, 3);
    Place(a, 11, [6 + Flag(supportsV2)], fields, 4);
  }

  method WriteAddress(a: array<Byte>, id: nat, target: nat, nonce: seq<Byte>, ghost fields: seq<seq<Byte>>)
    requires a.Length == HELLO_BYTES && |fields| == 12 && |nonce| == 32 && Written(a, 12, fields, 5)
    requires fields[5] == Octets(id, 8) && fields[6] == Octets(target, 8) && fields[7] == nonce
    modifies a
    ensures Written(a, 60, fields, 8)
  {
    hide Written, Octets;
    Place(a, 12, Octets(id, 8), fields, 5);
    Place(a, 20, Octets(target, 8), fields, 6);
    Place(a, 28, nonce, fields, 7);
  }

  method WriteIdentity(a: array<Byte>, p: Peer, ghost fields: seq<seq<Byte>>)
    requires ValidPeer(p) && a.Length == HELLO_BYTES && |fields| == 12 && Written(a, 60, fields, 8)
    requires fields[8] == [Flag(p.epoch.Some?)] && fields[9] == EpochBytes(p)
    requires fields[10] == [Flag(p.bootNonce.Some?)] && fields[11] == NonceBytes(p)
    modifies a
    ensures Written(a, HELLO_BYTES, fields, 12)
  {
    hide Written, EpochBytes, NonceBytes, Flag;
    Place(a, 60, [Flag(p.epoch.Some?)], fields, 8);
    Place(a, 61, EpochBytes(p), fields, 9);
    Place(a, 77, [Flag(p.bootNonce.Some?)], fields, 10);
    Place(a, 78, NonceBytes(p), fields, 11);
  }

  method WriteGreeting(p: Peer, target: nat, listener: Listener, role: Byte, nonce: seq<Byte>)
    returns (bytes: array<Byte>)
    requires ValidPeer(p) && |nonce| == 32
    ensures fresh(bytes) && bytes[..] == Greeting(p, target, listener, role, nonce)
  {
    bytes := new Byte[HELLO_BYTES];
    ghost var fields := Fields(p, target, listener, role, nonce);
    FieldsAre(p, target, listener, role, nonce);
    hide ValidPeer, Written, Joined, Fields, Octets, EpochBytes, NonceBytes, Code, Flag;
    NothingWritten(bytes, fields);
    WriteHeader(bytes, listener, role, p.supportsV2, fields);
    WriteAddress(bytes, p.id, target, nonce, fields);
    WriteIdentity(bytes, p, fields);
    AllWritten(bytes, fields);
  }

  /** A whole greeting, all its bytes read. */
  function Decoded(bytes: seq<Byte>, listener: Listener, role: Byte, target: nat): Result
    requires |bytes| == HELLO_BYTES
  {
    if || bytes[9] != Code(listener)
       || bytes[10] != role
       || !(bytes[11] == 6 || bytes[11] == 7)
       || bytes[60] > 1
       || bytes[77] > 1
    then Err(WrongHeader)
    else if Number(bytes[20..28]) != target then Err(WrongDestination)
    else if bytes[60] == 0 && bytes[61..77] != Zeros(16) then Err(WrongEpoch)
    else if bytes[77] == 0 && bytes[78..110] != Zeros(32) then Err(WrongNonce)
    else
      Ok(bytes, Peer(
           Number(bytes[12..20]),
           if bytes[60] == 1 then Some(Number(bytes[61..77])) else None,
           bytes[11] % 2 == 1,
           if bytes[77] == 1 then Some(bytes[78..110]) else None))
  }

  /** Reading from a stream: the magic first, then the version, then the rest. */
  function Received(stream: seq<Byte>, listener: Listener, role: Byte, target: nat): Result {
    if |stream| < 8 then Err(Truncated)
    else if stream[..8] != MAGIC then Err(WrongMagic)
    else if |stream| < 9 then Err(Truncated)
    else if stream[8] != VERSION then Err(WrongVersion)
    else if |stream| < HELLO_BYTES then Err(Truncated)
    else Decoded(stream[..HELLO_BYTES], listener, role, target)
  }

  lemma {:induction false} ZeroOctets(width: nat)
    ensures Octets(0, width) == Zeros(width)
  {
    if width > 0 {
      ZeroOctets(width - 1);
      assert Zeros(width) == Zeros(width - 1) + [0];
    }
  }

  /** `read_exact` into part of the buffer. */
  method ReadInto(a: array<Byte>, from: nat, to: nat, stream: seq<Byte>) returns (complete: bool)
    requires from <= to <= a.Length && (from > 0 ==> from <= |stream| && a[..from] == stream[..from])
    modifies a
    ensures complete == (to <= |stream|)
    ensures complete ==> a[..to] == stream[..to]
  {
    if to > |stream| {
      return false;
    }
    for i := from to to
      invariant a[..i] == stream[..i]
    {
      a[i] := stream[i];
      assert a[..i + 1] == a[..i] + [stream[i]];
    }
    return true;
  }

  method ReadGreeting(stream: seq<Byte>, listener: Listener, role: Byte, target: nat) returns (r: Result)
    ensures r == Received(stream, listener, role, target)
  {
    var bytes := new Byte[HELLO_BYTES];
    var complete := ReadInto(bytes, 0, 8, stream);
    if !complete {
      return Err(Truncated);
    }
    if bytes[..8] != MAGIC {
      return Err(WrongMagic);
    }
    complete := ReadInto(bytes, 8, 9, stream);
    if !complete {
      return Err(Truncated);
    }
    assert bytes[8] == bytes[..9][8] == stream[8];
    if bytes[8] != VERSION {
      return Err(WrongVersion);
    }
    complete := ReadInto(bytes, 9, HELLO_BYTES, stream);
    if !complete {
      return Err(Truncated);
    }
    r := DecodeGreeting(bytes, listener, role, target);
    assert bytes[..] == bytes[..HELLO_BYTES];
  }

  method DecodeGreeting(bytes: array<Byte>, listener: Listener, role: Byte, target: nat) returns (r: Result)
    requires bytes.Length == HELLO_BYTES
    ensures r == Decoded(bytes[..], listener, role, target)
  {
    var all := bytes[..];
    if
      || bytes[9] != Code(listener) || bytes[10] != role || !(bytes[11] == 6 || bytes[11] == 7)
      || bytes[60] > 1 || bytes[77] > 1
    {
      return Err(WrongHeader);
    }
    if Number(all[20..28]) != target {
      return Err(WrongDestination);
    }
    var epoch := all[61..77];
    if bytes[60] == 0 && epoch != Zeros(16) {
      return Err(WrongEpoch);
    }
    var shown := if bytes[60] == 1 then Some(Number(epoch)) else None;
    var peer := Peer(Number(all[12..20]), shown, bytes[11] % 2 == 1, None);
    var bootNonce := all[78..110];
    if bytes[77] == 0 && bootNonce != Zeros(32) {
      return Err(WrongNonce);
    }
    if bytes[77] == 1 {
      peer := peer.(bootNonce := Some(bootNonce));
    }
    return Ok(all, peer);
  }

  /** The fields of accepted bytes are those of the peer they decode to. */
  predicate Agrees(bytes: seq<Byte>, p: Peer, target: nat, listener: Listener, role: Byte)
    requires |bytes| == HELLO_BYTES && ValidPeer(p)
  {
    && bytes[9] == Code(listener) && bytes[10] == role && bytes[11] == 6 + Flag(p.supportsV2)
    && bytes[12..20] == Octets(p.id, 8) && bytes[20..28] == Octets(target, 8)
    && bytes[60] == Flag(p.epoch.Some?) && bytes[61..77] == EpochBytes(p)
    && bytes[77] == Flag(p.bootNonce.Some?) && bytes[78..110] == NonceBytes(p)
  }

  lemma GreetingBytes(bytes: seq<Byte>, p: Peer, target: nat, listener: Listener, role: Byte, nonce: seq<Byte>)
    requires ValidPeer(p) && |nonce| == 32 && bytes == Greeting(p, target, listener, role, nonce)
    ensures |bytes| == HELLO_BYTES && bytes[0..8] == MAGIC && bytes[8] == VERSION
    ensures Agrees(bytes, p, target, listener, role)
  {
    GreetingSlices(p, target, listener, role, nonce);
    FieldsAre(p, target, listener, role, nonce);
    hide ValidPeer, Fields, Greeting, Octets, EpochBytes, NonceBytes, Code, Flag;
    SlicesAt(bytes);
  }

  lemma GreetingDecodes(bytes: seq<Byte>, p: Peer, target: nat, listener: Listener, role: Byte)
    requires |bytes| == HELLO_BYTES && ValidPeer(p) && target < Capacity(Octet, 8)
    requires Agrees(bytes, p, target, listener, role)
    ensures Decoded(bytes, listener, role, target) == Ok(bytes, p)
  {
    hide Octets, Number, Capacity, Zeros;
    NumberOf(p.id, 8);
    NumberOf(target, 8);
    if p.epoch.Some? { NumberOf(p.epoch.value, 16); }
    ZeroOctets(16);
  }

  lemma SlicesAt(bytes: seq<Byte>)
    requires |bytes| == HELLO_BYTES
    ensures var f := Slices(bytes);
            && |f| == 12 && f[0] == bytes[0..8] && f[1] == [bytes[8]] && f[2] == [bytes[9]] && f[3] == [bytes[10]]
            && f[4] == [bytes[11]] && f[5] == bytes[12..20] && f[6] == bytes[20..28] && f[7] == bytes[28..60]
            && f[8] == [bytes[60]] && f[9] == bytes[61..77] && f[10] == [bytes[77]] && f[11] == bytes[78..110]
  {}

  /** Every greeting is read back: the same bytes and the sender, whatever follows it. */
  lemma GreetingIsRead(p: Peer, target: nat, listener: Listener, role: Byte, nonce: seq<Byte>, rest: seq<Byte>)
    requires ValidPeer(p) && |nonce| == 32 && target < Capacity(Octet, 8)
    ensures var bytes := Greeting(p, target, listener, role, nonce);
            Received(bytes + rest, listener, role, target) == Ok(bytes, p)
  {
    var bytes := Greeting(p, target, listener, role, nonce);
    GreetingBytes(bytes, p, target, listener, role, nonce);
    hide Greeting, ValidPeer;
    GreetingDecodes(bytes, p, target, listener, role);
    hide Decoded;
    assert (bytes + rest)[..HELLO_BYTES] == bytes && (bytes + rest)[..8] == bytes[0..8];
  }

  lemma DecodedAgrees(bytes: seq<Byte>, listener: Listener, role: Byte, target: nat)
    requires |bytes| == HELLO_BYTES && Decoded(bytes, listener, role, target).Ok?
    ensures var p := Decoded(bytes, listener, role, target).peer;
            ValidPeer(p) && target < Capacity(Octet, 8) && Agrees(bytes, p, target, listener, role)
  {
    hide Octets, Number, Capacity, Zeros;
    var p := Decoded(bytes, listener, role, target).peer;
    OctetsOf(bytes[12..20]);
    OctetsOf(bytes[20..28]);
    OctetsOf(bytes[61..77]);
    ZeroOctets(16);
    assert ValidPeer(p);
    assert bytes[61..77] == EpochBytes(p);
    assert bytes[78..110] == NonceBytes(p);
  }

  lemma AgreeingIsGreeting(bytes: seq<Byte>, p: Peer, target: nat, listener: Listener, role: Byte)
    requires |bytes| == HELLO_BYTES && ValidPeer(p) && Agrees(bytes, p, target, listener, role)
    requires bytes[0..8] == MAGIC && bytes[8] == VERSION
    ensures bytes == Greeting(p, target, listener, role, bytes[28..60])
  {
    hide ValidPeer, Greeting, Octets, EpochBytes, NonceBytes, Code, Flag;
    SlicesAt(bytes);
    FieldsAre(p, target, listener, role, bytes[28..60]);
    hide Fields, Slices;
    SameFields(Slices(bytes), Fields(p, target, listener, role, bytes[28..60]));
    SlicesMakeGreeting(bytes, p, target, listener, role, bytes[28..60]);
  }

  /** Every accepted greeting is exactly the encoding of what it decodes to. */
  lemma AcceptedIsGreeting(stream: seq<Byte>, listener: Listener, role: Byte, target: nat)
    requires Received(stream, listener, role, target).Ok?
    ensures var r := Received(stream, listener, role, target);
            && |stream| >= HELLO_BYTES && r.bytes == stream[..HELLO_BYTES]
            && ValidPeer(r.peer) && target < Capacity(Octet, 8)
            && r.bytes == Greeting(r.peer, target, listener, role, r.bytes[28..60])
  {
    var bytes := stream[..HELLO_BYTES];
    assert bytes[0..8] == stream[..8];
    assert Decoded(bytes, listener, role, target).Ok? ==> Decoded(bytes, listener, role, target).bytes == bytes;
    hide Decoded, ValidPeer, Agrees, Greeting;
    DecodedAgrees(bytes, listener, role, target);
    AgreeingIsGreeting(bytes, Decoded(bytes, listener, role, target).peer, target, listener, role);
  }

  lemma SameFields(a: seq<seq<Byte>>, b: seq<seq<Byte>>)
    requires |a| == |b| == 12
    requires a[0] == b[0] && a[1] == b[1] && a[2] == b[2] && a[3] == b[3] && a[4] == b[4] && a[5] == b[5]
    requires a[6] == b[6] && a[7] == b[7] && a[8] == b[8] && a[9] == b[9] && a[10] == b[10] && a[11] == b[11]
    ensures a == b
  {}
}
