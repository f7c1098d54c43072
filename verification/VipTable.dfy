/**
 The VIP table: every configured address in canonical form, sorted, once.
 */
module VipTable {
  import opened Prelude
  import O = Order
  import Utf8

  type Word32 = n: nat | n < 0x1_0000_0000
  type Word128 = n: nat | n < 0x1_0000_0000_0000_0000_0000_0000_0000_0000

  datatype Address = V4(v4: Word32) | V6(v6: Word128)

  datatype Vip = Vip(address: Address, prefix: nat, interface: string, vlan: Option<nat>)

  /** What the kernel will be told. */
  datatype Binding = Binding(address: Address, prefix: nat, interface: string)

  datatype Outcome = Ok | Invalid(index: nat) | Conflicting(index: nat)

  function TwoTo(n: nat): (p: nat)
    ensures p > 0
  {
    if n == 0 then 1 else 2 * TwoTo(n - 1)
  }

  /** Address order: every IPv4 address before every IPv6 address, then by number. */
  function Rank(a: Address): nat {
    match a
    case V4(n) => n
    case V6(n) => 0x1_0000_0000 + n
  }

  // ---- Interface names ----

  function Decimal(n: nat): string {
    var digit := [(n % 10 + 48) as char];
    if n < 10 then digit else Decimal(n / 10) + digit
  }

  /** The Unicode White_Space property. */
  predicate IsWhitespace(c: char) {
    var code := c as int;
    || 9 <= code <= 13 || code == 0x20 || code == 0x85 || code == 0xA0 || code == 0x1680
    || 0x2000 <= code <= 0x200A || code == 0x2028 || code == 0x2029
    || code == 0x202F || code == 0x205F || code == 0x3000
  }

  predicate IsControl(c: char) {
    var code := c as int;
    code < 0x20 || 0x7F <= code <= 0x9F
  }

  predicate ValidInterface(name: string) {
    && name != ""
    && |Utf8.Bytes(name)| <= 15
    && name != "."
    && name != ".."
    && forall i :: 0 <= i < |name| ==> !IsWhitespace(name[i]) && !IsControl(name[i]) && name[i] != '/' && name[i] != ':'
  }

  function EffectiveInterface(v: Vip): string {
    match v.vlan
    case None => v.interface
    case Some(vlan) => v.interface + "." + Decimal(vlan)
  }

  // ---- One VIP ----

  /** IPv4-mapped IPv6, section 2.5.5.2 of RFC 4291. */
  predicate IsMapped(a: Address) {
    a.V6? && a.v6 / 0x1_0000_0000 == 0xFFFF
  }

  function Canonical(v: Vip): Vip {
    if IsMapped(v.address) && 97 <= v.prefix <= 128
    then v.(address := V4(v.address.v6 % 0x1_0000_0000), prefix := v.prefix - 96)
    else v
  }

  predicate IsHost(a: Address, prefix: nat) {
    match a
    case V4(n) =>
      && n != 0 && n / 0x1000_0000 != 14 && n / 0x100_0000 != 127
      && 1 <= prefix <= 32
      && n != 0xFFFF_FFFF
      && (prefix < 31 ==> var size := TwoTo(32 - prefix); n % size != 0 && n % size != size - 1)
    case V6(n) =>
      && n != 0 && n / TwoTo(120) != 0xFF && n != 1
      && 1 <= prefix <= 128
  }

  predicate Valid(v: Vip) {
    && (IsMapped(v.address) ==> 97 <= v.prefix <= 128)
    && IsHost(Canonical(v).address, Canonical(v).prefix)
    && ValidInterface(v.interface)
    && (v.vlan.Some? ==> 1 <= v.vlan.value <= 4094 && '.' !in v.interface)
    && ValidInterface(EffectiveInterface(v))
  }

  function BindingOf(v: Vip): Binding {
    var w := Canonical(v);
    Binding(w.address, w.prefix, EffectiveInterface(w))
  }

  // ---- The list ----

  function CanonicalAll(vips: seq<Vip>): (r: seq<Vip>)
    ensures |r| == |vips| && forall i :: 0 <= i < |r| ==> r[i] == Canonical(vips[i])
  {
    seq(|vips|, i requires 0 <= i < |vips| => Canonical(vips[i]))
  }

  /** One address, one prefix and effective interface. */
  ghost predicate Agreeing(vips: seq<Vip>) {
    forall i, j :: 0 <= i < |vips| && 0 <= j < |vips| && BindingOf(vips[i]).address == BindingOf(vips[j]).address ==>
                     BindingOf(vips[i]) == BindingOf(vips[j])
  }

  ghost predicate Acceptable(vips: seq<Vip>) {
    (forall i :: 0 <= i < |vips| ==> Valid(vips[i])) && Agreeing(vips)
  }

  function VipRank(v: Vip): int {
    Rank(v.address)
  }

  function BindingRank(b: Binding): int {
    Rank(b.address)
  }

  /** Keep the first of each run of equal addresses. */
  function Deduplicated(s: seq<Vip>): seq<Vip> {
    if |s| <= 1 then s
    else
      var n := |s| - 1;
      if s[n].address == s[n - 1].address then Deduplicated(s[..n]) else Deduplicated(s[..n]) + [s[n]]
  }

  function Normalized(vips: seq<Vip>): seq<Vip> {
    Deduplicated(O.Sorted(CanonicalAll(vips), VipRank))
  }

  /** `sorted_vips` */
  function Table(vips: seq<Vip>): (t: seq<Binding>)
    ensures |t| == |vips|
    ensures forall i :: 0 <= i < |t| ==>
              t[i] == Binding(vips[i].address, vips[i].prefix, EffectiveInterface(vips[i]))
  {
    seq(|vips|, i requires 0 <= i < |vips| => Binding(vips[i].address, vips[i].prefix, EffectiveInterface(vips[i])))
  }

  /** The map holds exactly the bindings of the first `n` VIPs. */
  ghost predicate Recorded(bindings: map<Address, (nat, string)>, vips: seq<Vip>, n: nat)
    requires n <= |vips|
  {
    && (forall k :: 0 <= k < n ==> InMap(bindings, BindingOf(vips[k])))
    && (forall a :: a in bindings ==> exists k :: 0 <= k < n && BindingOf(vips[k]).address == a)
  }

  predicate InMap(bindings: map<Address, (nat, string)>, b: Binding) {
    b.address in bindings && bindings[b.address] == (b.prefix, b.interface)
  }

  lemma NothingRecorded(vips: seq<Vip>)
    ensures Recorded(map[], vips, 0)
  {}

  lemma RecordedNext(bindings: map<Address, (nat, string)>, vips: seq<Vip>, n: nat)
    requires n < |vips| && Recorded(bindings, vips, n)
    ensures var b := BindingOf(vips[n]);
            if b.address in bindings && !InMap(bindings, b) then !Agreeing(vips)
            else Recorded(bindings[b.address := (b.prefix, b.interface)], vips, n + 1)
  {
    var b := BindingOf(vips[n]);
    hide BindingOf;
    if b.address in bindings && !InMap(bindings, b) {
      var k :| 0 <= k < n && BindingOf(vips[k]).address == b.address;
      assert InMap(bindings, BindingOf(vips[k]));
    } else {
      var next := bindings[b.address := (b.prefix, b.interface)];
      forall k | 0 <= k < n + 1 ensures InMap(next, BindingOf(vips[k])) {
        if k < n { assert InMap(bindings, BindingOf(vips[k])); }
      }
      forall a | a in next ensures exists k :: 0 <= k < n + 1 && BindingOf(vips[k]).address == a {
        if a == b.address { assert BindingOf(vips[n]).address == a; }
      }
    }
  }

  lemma RecordedAgrees(bindings: map<Address, (nat, string)>, vips: seq<Vip>)
    requires Recorded(bindings, vips, |vips|)
    ensures Agreeing(vips)
  {
    hide BindingOf;
    forall i, j | 0 <= i < |vips| && 0 <= j < |vips| && BindingOf(vips[i]).address == BindingOf(vips[j]).address
      ensures BindingOf(vips[i]) == BindingOf(vips[j])
    {
      assert InMap(bindings, BindingOf(vips[i])) && InMap(bindings, BindingOf(vips[j]));
    }
  }

  class Config {
    var vips: seq<Vip>

    constructor (vips: seq<Vip>)
      ensures this.vips == vips
    {
      this.vips := vips;
    }

    /** On an error the list is left partly rewritten; the caller discards the configuration. */
    method NormalizeVips() returns (outcome: Outcome)
      modifies this
      ensures outcome.Ok? <==> Acceptable(old(vips))
      ensures outcome.Ok? ==> vips == Normalized(old(vips))
      ensures outcome.Invalid? ==> outcome.index < |old(vips)| && !Valid(old(vips)[outcome.index])
    {
      hide Valid, Canonical, EffectiveInterface, O.Sorted, Deduplicated, Recorded, Agreeing;
      ghost var was := vips;
      var bindings: map<Address, (nat, string)> := map[];
      NothingRecorded(was);
      var i := 0;
      while i < |vips|
        invariant i <= |vips| == |was|
        invariant forall k :: 0 <= k < |was| ==> vips[k] == if k < i then Canonical(was[k]) else was[k]
        invariant forall k :: 0 <= k < i ==> Valid(was[k])
        invariant Recorded(bindings, was, i)
      {
        if !Valid(vips[i]) {
          return Invalid(i);
        }
        RecordedNext(bindings, was, i);
        var v := Canonical(vips[i]);
        vips := vips[i := v];
        var binding := (v.prefix, EffectiveInterface(v));
        if v.address in bindings && bindings[v.address] != binding {
          return Conflicting(i);
        }
        bindings := bindings[v.address := binding];
        i := i + 1;
      }
      assert vips == CanonicalAll(was);
      RecordedAgrees(bindings, was);
      vips := Deduplicated(O.Sorted(vips, VipRank));
      return Ok;
    }
  }

  // ---- What normalization means ----

  function Bindings(vips: seq<Vip>): set<Binding> {
    set v | v in vips :: BindingOf(v)
  }

  lemma RankIsOneToOne(a: Address, b: Address)
    ensures Rank(a) == Rank(b) ==> a == b
  {}

  /** The last address survives, so comparing with the previous entry is comparing with the last one kept. */
  lemma {:induction false} DeduplicatedOrdered(s: seq<Vip>)
    requires O.Ordered(s, VipRank)
    ensures var d := Deduplicated(s);
            && O.Increasing(d, VipRank)
            && (s != [] ==> d != [] && d[|d| - 1].address == s[|s| - 1].address)
    decreases |s|
  {
    if |s| > 1 {
      var n := |s| - 1;
      DeduplicatedOrdered(s[..n]);
      assert s[..n][n - 1] == s[n - 1];
      RankIsOneToOne(s[n - 1].address, s[n].address);
    }
  }

  lemma {:induction false} DeduplicatedMembers(s: seq<Vip>, x: Vip)
    ensures x in Deduplicated(s) ==> x in s
    ensures x in s ==> exists y :: y in Deduplicated(s) && y.address == x.address
    decreases |s|
  {
    if |s| > 1 {
      var n := |s| - 1;
      DeduplicatedMembers(s[..n], x);
      assert s == s[..n] + [s[n]];
      if x == s[n] && s[n].address == s[n - 1].address {
        DeduplicatedMembers(s[..n], s[n - 1]);
      }
    }
  }

  /** A normalized entry is the canonical form of a configured one. */
  lemma NormalizedMember(vips: seq<Vip>, x: Vip) returns (v: Vip)
    requires x in Normalized(vips)
    ensures v in vips && x == Canonical(v)
  {
    var all := CanonicalAll(vips);
    DeduplicatedMembers(O.Sorted(all, VipRank), x);
    O.SortedMembers(all, VipRank, x);
    var i :| 0 <= i < |all| && all[i] == x;
    v := vips[i];
  }

  lemma NormalizedCovers(vips: seq<Vip>, v: Vip) returns (x: Vip)
    requires v in vips
    ensures x in Normalized(vips) && x.address == Canonical(v).address
  {
    var all := CanonicalAll(vips);
    var i :| 0 <= i < |vips| && vips[i] == v;
    assert all[i] == Canonical(v);
    O.SortedMembers(all, VipRank, all[i]);
    DeduplicatedMembers(O.Sorted(all, VipRank), all[i]);
    x :| x in Deduplicated(O.Sorted(all, VipRank)) && x.address == Canonical(v).address;
  }

  lemma CanonicalTwice(v: Vip)
    ensures Canonical(Canonical(v)) == Canonical(v) && BindingOf(Canonical(v)) == BindingOf(v)
  {}

  lemma NormalizedStrictly(vips: seq<Vip>)
    ensures O.Increasing(Normalized(vips), VipRank)
  {
    O.SortedOrdered(CanonicalAll(vips), VipRank);
    DeduplicatedOrdered(O.Sorted(CanonicalAll(vips), VipRank));
  }

  lemma TableEntry(vips: seq<Vip>, i: nat)
    requires i < |Normalized(vips)|
    ensures Table(Normalized(vips))[i] == BindingOf(Normalized(vips)[i])
  {
    var v := NormalizedMember(vips, Normalized(vips)[i]);
    CanonicalTwice(v);
  }

  /** The table has strictly increasing addresses and holds every binding exactly once. */
  lemma TableHoldsEveryBinding(vips: seq<Vip>)
    requires Acceptable(vips)
    ensures O.Increasing(Table(Normalized(vips)), BindingRank)
    ensures forall b :: b in Table(Normalized(vips)) <==> b in Bindings(vips)
  {
    var n := Normalized(vips);
    NormalizedStrictly(vips);
    forall b | b in Table(n) ensures b in Bindings(vips) {
      var i :| 0 <= i < |n| && Table(n)[i] == b;
      TableEntry(vips, i);
      var v := NormalizedMember(vips, n[i]);
      CanonicalTwice(v);
    }
    forall b | b in Bindings(vips) ensures b in Table(n) {
      var v :| v in vips && BindingOf(v) == b;
      var x := NormalizedCovers(vips, v);
      var i :| 0 <= i < |n| && n[i] == x;
      TableEntry(vips, i);
      var u := NormalizedMember(vips, x);
      CanonicalTwice(u);
      AgreesOn(vips, u, v);
    }
  }

  lemma AgreesOn(vips: seq<Vip>, u: Vip, v: Vip)
    requires Agreeing(vips) && u in vips && v in vips && BindingOf(u).address == BindingOf(v).address
    ensures BindingOf(u) == BindingOf(v)
  {}

  /**
   Whether a list of valid VIPs is accepted, and the table it yields, depend only on the set of its
   canonical bindings: not on order, repetition, mapped notation or how a VLAN is spelled.
   */
  lemma OnlyBindingsMatter(a: seq<Vip>, b: seq<Vip>)
    requires Bindings(a) == Bindings(b)
    requires (forall i :: 0 <= i < |a| ==> Valid(a[i])) && (forall i :: 0 <= i < |b| ==> Valid(b[i]))
    ensures Acceptable(a) <==> Acceptable(b)
    ensures Acceptable(a) ==> Table(Normalized(a)) == Table(Normalized(b))
  {
    if Agreeing(a) { AgreementCarries(a, b); }
    if Agreeing(b) { AgreementCarries(b, a); }
    if Acceptable(a) {
      TableHoldsEveryBinding(a);
      TableHoldsEveryBinding(b);
      O.IncreasingIsDetermined(Table(Normalized(a)), Table(Normalized(b)), BindingRank);
    }
  }

  /** In particular the order of the list never matters, to acceptance or to the table. */
  lemma OrderDoesNotMatter(a: seq<Vip>, b: seq<Vip>)
    requires forall v :: v in a <==> v in b
    ensures Acceptable(a) <==> Acceptable(b)
    ensures Acceptable(a) ==> Table(Normalized(a)) == Table(Normalized(b))
  {
    assert Bindings(a) == Bindings(b);
    assert (forall i :: 0 <= i < |a| ==> Valid(a[i])) <==> (forall i :: 0 <= i < |b| ==> Valid(b[i])) by {
      hide Valid;
      assert forall i :: 0 <= i < |a| ==> a[i] in b;
      assert forall i :: 0 <= i < |b| ==> b[i] in a;
    }
    if forall i :: 0 <= i < |a| ==> Valid(a[i]) { OnlyBindingsMatter(a, b); }
  }

  lemma AgreementCarries(a: seq<Vip>, b: seq<Vip>)
    requires Bindings(b) <= Bindings(a) && Agreeing(a)
    ensures Agreeing(b)
  {
    hide BindingOf;
    forall i, j | 0 <= i < |b| && 0 <= j < |b| && BindingOf(b[i]).address == BindingOf(b[j]).address
      ensures BindingOf(b[i]) == BindingOf(b[j])
    {
      assert b[i] in b && b[j] in b;
      assert BindingOf(b[i]) in Bindings(a) && BindingOf(b[j]) in Bindings(a);
      var u :| u in a && BindingOf(u) == BindingOf(b[i]);
      var v :| v in a && BindingOf(v) == BindingOf(b[j]);
      AgreesOn(a, u, v);
    }
  }

  lemma {:induction false} DeduplicatedKeeps(s: seq<Vip>)
    requires O.Increasing(s, VipRank)
    ensures Deduplicated(s) == s
    decreases |s|
  {
    if |s| > 1 {
      DeduplicatedKeeps(s[..|s| - 1]);
      assert s == s[..|s| - 1] + [s[|s| - 1]];
    }
  }

  /** Normalizing again accepts and changes nothing. */
  lemma NormalizationIsIdempotent(vips: seq<Vip>)
    requires Acceptable(vips)
    ensures Acceptable(Normalized(vips)) && Normalized(Normalized(vips)) == Normalized(vips)
  {
    var n := Normalized(vips);
    forall i | 0 <= i < |n| ensures Canonical(n[i]) == n[i] && Valid(n[i]) && BindingOf(n[i]) in Bindings(vips) {
      var v := NormalizedMember(vips, n[i]);
      CanonicalTwice(v);
      CanonicalIsValid(v);
    }
    assert Bindings(n) <= Bindings(vips);
    AgreementCarries(vips, n);
    assert CanonicalAll(n) == n;
    NormalizedStrictly(vips);
    O.SortedKeeps(n, VipRank);
    DeduplicatedKeeps(n);
  }

  lemma CanonicalIsValid(v: Vip)
    requires Valid(v)
    ensures Valid(Canonical(v))
  {
    hide IsHost, ValidInterface;
    CanonicalTwice(v);
  }
}
