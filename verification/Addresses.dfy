/**
 Node addresses of a VM (pkg/actuators/machine/machine_scope.go:323-447). A field behind a nil
 pointer anywhere on its path is an absent option.
 */
module Addresses {
  import opened Basics
  import opened IpText

  /** Ipv4Config.IpAddress.Value and Ipv4Info.LearnedIpAddresses. */
  datatype NetworkInfo = NetworkInfo(fixed: Option<string>, learned: seq<Option<string>>)

  /** NicNetworkInfo. An SR-IOV NIC carries no address in it. */
  datatype OneOf = Unset | VirtualEthernet(info: NetworkInfo) | DpOffload(info: NetworkInfo) | Sriov | OtherKind

  datatype Nic = Nic(oneOf: OneOf, deprecated: Option<NetworkInfo>)

  const NOTHING := NetworkInfo(None, [])

  /** The information that counts for a NIC. */
  function InfoOf(nic: Nic): NetworkInfo {
    match nic.oneOf
    case VirtualEthernet(info) => info
    case DpOffload(info) => info
    case OtherKind => NOTHING
    case _ => nic.deprecated.GetOr(NOTHING)
  }

  predicate Usable(v6: V6Parser, ip: Option<string>) {
    ip.Some? && ip.value != "" && !IsLinkLocal(v6, ip.value)
  }

  function LearnedIp(v6: V6Parser): Option<string> -> seq<string> {
    ip => if Usable(v6, ip) then [ip.value] else []
  }

  function NicIps(v6: V6Parser): Nic -> seq<string> {
    nic =>
      var info := InfoOf(nic);
      if Usable(v6, info.fixed) then [info.fixed.value] else Collect(info.learned, LearnedIp(v6))
  }

  function Ips(v6: V6Parser, nics: seq<Nic>): seq<string> { Collect(nics, NicIps(v6)) }

  /** getIPsFromIpv4Info. */
  method GetIPsFromIpv4Info(v6: V6Parser, learned: seq<Option<string>>) returns (ips: seq<string>)
    ensures ips == Collect(learned, LearnedIp(v6))
  {
    ips := [];
    for i := 0 to |learned|
      invariant ips == Collect(learned[..i], LearnedIp(v6))
    {
      CollectStep(learned, LearnedIp(v6), i);
      if learned[i].None? || learned[i].value == "" || IsLinkLocal(v6, learned[i].value) { continue; }
      ips := ips + [learned[i].value];
    }
    assert learned[..|learned|] == learned;
  }

  /** getIPsFromNic. */
  method GetIPsFromNic(v6: V6Parser, nic: Nic) returns (ips: seq<string>)
    ensures ips == NicIps(v6)(nic)
  {
    var info := NOTHING;
    match nic.oneOf {
      case VirtualEthernet(i) => info := i;
      case DpOffload(i) => info := i;
      case Sriov => if nic.deprecated.Some? { info := nic.deprecated.value; }
      case Unset => if nic.deprecated.Some? { info := nic.deprecated.value; }
      case OtherKind =>
    }
    if info.fixed.Some? {
      var ip := info.fixed.value;
      if ip != "" && !IsLinkLocal(v6, ip) { return [ip]; }
    }
    ips := GetIPsFromIpv4Info(v6, info.learned);
  }

  /** getIPsFromNics. */
  method GetIPsFromNics(v6: V6Parser, nics: seq<Nic>) returns (ips: seq<string>)
    ensures ips == Ips(v6, nics)
  {
    ips := [];
    for i := 0 to |nics|
      invariant ips == Ips(v6, nics[..i])
    {
      CollectStep(nics, NicIps(v6), i);
      var more := GetIPsFromNic(v6, nics[i]);
      ips := ips + more;
    }
    assert nics[..|nics|] == nics;
  }

  // ---------------------------------------------------------------- Sorting

  /** The order of strings that slices.Sort uses. */
  predicate Le(a: string, b: string) {
    a == "" || (b != "" && (a[0] < b[0] || (a[0] == b[0] && Le(a[1..], b[1..]))))
  }

  lemma {:induction false} LeTotal(a: string, b: string)
    ensures Le(a, b) || Le(b, a)
    ensures Le(a, b) && Le(b, a) ==> a == b
  {
    if a != "" && b != "" && a[0] == b[0] {
      LeTotal(a[1..], b[1..]);
      assert a == [a[0]] + a[1..] && b == [b[0]] + b[1..];
    }
  }

  lemma {:induction false} LeTransitive(a: string, b: string, c: string)
    requires Le(a, b) && Le(b, c)
    ensures Le(a, c)
  {
    if a != "" && a[0] == b[0] == c[0] { LeTransitive(a[1..], b[1..], c[1..]); }
  }

  ghost predicate IsSorted(s: seq<string>) {
    forall i, j :: 0 <= i < j < |s| ==> Le(s[i], s[j])
  }

  function Insert(s: seq<string>, x: string): seq<string> {
    if s == [] || Le(x, s[0]) then [x] + s else [s[0]] + Insert(s[1..], x)
  }

  /** slices.Sort: SortedOnce shows that any correct sort gives this list. */
  function Sort(s: seq<string>): seq<string> {
    if s == [] then [] else Insert(Sort(s[..|s| - 1]), s[|s| - 1])
  }

  lemma {:induction false} InsertKeeps(s: seq<string>, x: string)
    requires IsSorted(s)
    ensures IsSorted(Insert(s, x)) && multiset(Insert(s, x)) == multiset(s) + multiset{x}
  {
    if s == [] || Le(x, s[0]) {
      forall j | 0 <= j < |s| ensures Le(x, s[j]) {
        if j > 0 { LeTransitive(x, s[0], s[j]); }
      }
    } else {
      var tail := Insert(s[1..], x);
      InsertKeeps(s[1..], x);
      LeTotal(x, s[0]);
      hide Le;
      assert s == [s[0]] + s[1..];
      forall j | 0 <= j < |tail| ensures Le(s[0], tail[j]) {
        assert tail[j] in multiset(tail);
        assert tail[j] == x || tail[j] in s[1..];
      }
    }
  }

  lemma {:induction false} SortSorts(s: seq<string>)
    ensures IsSorted(Sort(s)) && multiset(Sort(s)) == multiset(s)
  {
    hide Le, Insert;
    if s != [] {
      SortSorts(s[..|s| - 1]);
      InsertKeeps(Sort(s[..|s| - 1]), s[|s| - 1]);
      assert s == s[..|s| - 1] + [s[|s| - 1]];
    }
  }

  /** The head of a sorted list comes before every element of it. */
  lemma HeadIsLeast(s: seq<string>, x: string)
    requires IsSorted(s) && x in multiset(s)
    ensures s != [] && Le(s[0], x)
  {
    var i :| 0 <= i < |s| && s[i] == x;
    LeTotal(x, x);
  }

  lemma TailMultiset<T>(s: seq<T>)
    requires s != []
    ensures multiset(s[1..]) == multiset(s) - multiset{s[0]}
  {
    assert s == [s[0]] + s[1..];
  }

  /** Two sorted lists with the same elements are the same list. */
  lemma {:induction false} SortedOnce(s: seq<string>, t: seq<string>)
    requires IsSorted(s) && IsSorted(t) && multiset(s) == multiset(t)
    ensures s == t
  {
    hide Le;
    assert |multiset(s)| == |s| && |multiset(t)| == |t|;
    if s != [] {
      assert s[0] in multiset(s) && t[0] in multiset(t);
      HeadIsLeast(s, t[0]);
      HeadIsLeast(t, s[0]);
      LeTotal(s[0], t[0]);
      TailMultiset(s);
      TailMultiset(t);
      SortedOnce(s[1..], t[1..]);
      assert s == [s[0]] + s[1..] && t == [t[0]] + t[1..];
    }
  }

  /** Sorting forgets the order. */
  lemma SortForgetsOrder(s: seq<string>, t: seq<string>)
    requires multiset(s) == multiset(t)
    ensures Sort(s) == Sort(t)
  {
    SortSorts(s);
    SortSorts(t);
    SortedOnce(Sort(s), Sort(t));
  }

  // ---------------------------------------------------------------- Node addresses

  datatype Address = InternalIP(text: string) | InternalDNS(text: string) | Hostname(text: string)

  datatype VmView = VmView(extId: Option<string>, name: Option<string>, nics: seq<Nic>)

  /** The IPs before sorting; listed is what ListNicsByVmId answers, absent when it fails. */
  function FoundIps(v6: V6Parser, vm: VmView, listed: Option<seq<Nic>>): seq<string> {
    if Ips(v6, vm.nics) == [] && vm.extId.Some? && listed.Some? then Ips(v6, listed.value) else Ips(v6, vm.nics)
  }

  function Internal(ips: seq<string>): (r: seq<Address>)
    ensures |r| == |ips| && forall i :: 0 <= i < |ips| ==> r[i] == InternalIP(ips[i])
  {
    seq(|ips|, i requires 0 <= i < |ips| => InternalIP(ips[i]))
  }

  function Names(name: Option<string>): seq<Address> {
    if name.Some? && name.value != "" then [InternalDNS(name.value), Hostname(name.value)] else []
  }

  function NodeAddresses(v6: V6Parser, vm: VmView, listed: Option<seq<Nic>>): seq<Address> {
    Internal(Sort(FoundIps(v6, vm, listed))) + Names(vm.name)
  }

  /** buildNodeAddresses. */
  method BuildNodeAddresses(v6: V6Parser, vm: VmView, listed: Option<seq<Nic>>) returns (addresses: seq<Address>)
    ensures addresses == NodeAddresses(v6, vm, listed)
  {
    hide Ips, Sort, IsLinkLocal, Internal;
    addresses := [];
    var ips := GetIPsFromNics(v6, vm.nics);
    if |ips| == 0 && vm.extId.Some? {
      if listed.Some? { ips := GetIPsFromNics(v6, listed.value); }
    }
    ips := Sort(ips);
    for i := 0 to |ips|
      invariant addresses == Internal(ips[..i])
    {
      addresses := addresses + [InternalIP(ips[i])];
      assert addresses == Internal(ips[..i + 1]);
    }
    assert ips[..|ips|] == ips;
    if vm.name.Some? && vm.name.value != "" {
      addresses := addresses + [InternalDNS(vm.name.value), Hostname(vm.name.value)];
    }
  }

  // ---------------------------------------------------------------- What the addresses are

  predicate UsableIp(v6: V6Parser, ip: string) { ip != "" && !IsLinkLocal(v6, ip) }

  /** The static IP if that is usable, and only then not the usable learned ones. */
  predicate Gives(v6: V6Parser, info: NetworkInfo, ip: string) {
    && UsableIp(v6, ip)
    && if info.fixed.Some? && UsableIp(v6, info.fixed.value) then ip == info.fixed.value else Some(ip) in info.learned
  }

  /**
   A virtual-Ethernet or offload NIC gives what its own information says; one without such information,
   or an SR-IOV one, what the deprecated information says; a NIC of another kind nothing.
   */
  predicate Contributes(v6: V6Parser, nic: Nic, ip: string) {
    || (nic.oneOf.VirtualEthernet? && Gives(v6, nic.oneOf.info, ip))
    || (nic.oneOf.DpOffload? && Gives(v6, nic.oneOf.info, ip))
    || ((nic.oneOf.Unset? || nic.oneOf.Sriov?) && nic.deprecated.Some? && Gives(v6, nic.deprecated.value, ip))
  }

  /** A usable static IP is all a NIC contributes. */
  lemma NicIpsExact(v6: V6Parser, nic: Nic, ip: string)
    ensures Usable(v6, InfoOf(nic).fixed) ==> NicIps(v6)(nic) == [InfoOf(nic).fixed.value]
    ensures ip in NicIps(v6)(nic) <==> Contributes(v6, nic, ip)
  {
    hide IsLinkLocal;
    var info := InfoOf(nic);
    if !Usable(v6, info.fixed) {
      CollectMember(info.learned, LearnedIp(v6), ip);
      if Some(ip) in info.learned && Usable(v6, Some(ip)) {
        var i :| 0 <= i < |info.learned| && info.learned[i] == Some(ip);
        assert ip in LearnedIp(v6)(info.learned[i]);
      }
    }
  }

  ghost predicate SomeNicGives(v6: V6Parser, nics: seq<Nic>, ip: string) {
    exists i :: 0 <= i < |nics| && Contributes(v6, nics[i], ip)
  }

  lemma IpsExact(v6: V6Parser, nics: seq<Nic>, ip: string)
    ensures ip in Ips(v6, nics) <==> SomeNicGives(v6, nics, ip)
  {
    hide Contributes;
    CollectMember(nics, NicIps(v6), ip);
    forall i | 0 <= i < |nics| ensures ip in NicIps(v6)(nics[i]) <==> Contributes(v6, nics[i], ip) {
      NicIpsExact(v6, nics[i], ip);
    }
  }

  /** The listed NICs count only when the VM has an id and no embedded NIC gives an IP. */
  ghost predicate FallsBack(v6: V6Parser, vm: VmView, listed: Option<seq<Nic>>) {
    vm.extId.Some? && listed.Some? && forall ip :: !SomeNicGives(v6, vm.nics, ip)
  }

  lemma NoIps(v6: V6Parser, nics: seq<Nic>)
    ensures Ips(v6, nics) == [] <==> forall ip :: !SomeNicGives(v6, nics, ip)
  {
    hide SomeNicGives, Ips;
    forall ip ensures ip in Ips(v6, nics) <==> SomeNicGives(v6, nics, ip) {
      IpsExact(v6, nics, ip);
    }
    if Ips(v6, nics) != [] { assert Ips(v6, nics)[0] in Ips(v6, nics); }
  }

  /**
   The address list: first the internal IPs, sorted, none empty and none link-local, exactly those some
   NIC contributes; then the VM's name as DNS name and host name, if it has one.
   */
  lemma AddressesExact(v6: V6Parser, vm: VmView, listed: Option<seq<Nic>>)
    returns (ips: seq<string>)
    ensures NodeAddresses(v6, vm, listed) == Internal(ips) +
      (if vm.name.Some? && vm.name.value != "" then [InternalDNS(vm.name.value), Hostname(vm.name.value)] else [])
    ensures IsSorted(ips)
    ensures forall ip :: ip in ips ==> ip != "" && !IsLinkLocal(v6, ip)
    ensures forall ip :: ip in ips <==>
      SomeNicGives(v6, if FallsBack(v6, vm, listed) then listed.value else vm.nics, ip)
  {
    hide IsLinkLocal, Ips;
    var nics := if FallsBack(v6, vm, listed) then listed.value else vm.nics;
    NoIps(v6, vm.nics);
    var found := FoundIps(v6, vm, listed);
    assert found == Ips(v6, nics);
    ips := Sort(found);
    SortSorts(found);
    forall ip ensures ip in ips <==> SomeNicGives(v6, nics, ip) {
      IpsExact(v6, nics, ip);
      assert ip in ips <==> ip in multiset(ips);
      assert ip in found <==> ip in multiset(found);
    }
    forall ip | SomeNicGives(v6, nics, ip) ensures ip != "" && !IsLinkLocal(v6, ip) {
      var i :| 0 <= i < |nics| && Contributes(v6, nics[i], ip);
    }
  }

  // ---------------------------------------------------------------- Order does not matter

  /** The same NIC but for the order of its learned IPs. */
  ghost predicate SameInfo(a: NetworkInfo, b: NetworkInfo) {
    a.fixed == b.fixed && multiset(a.learned) == multiset(b.learned)
  }

  ghost predicate SameNic(a: Nic, b: Nic) {
    && (a.deprecated.Some? <==> b.deprecated.Some?)
    && (a.deprecated.Some? ==> SameInfo(a.deprecated.value, b.deprecated.value))
    && match (a.oneOf, b.oneOf)
       case (VirtualEthernet(i), VirtualEthernet(j)) => SameInfo(i, j)
       case (DpOffload(i), DpOffload(j)) => SameInfo(i, j)
       case _ => a.oneOf == b.oneOf
  }

  /** as permuted, and then the learned IPs of each NIC permuted, is bs; middle is the list in between. */
  ghost predicate Reordered(as': seq<Nic>, middle: seq<Nic>, bs: seq<Nic>) {
    && multiset(as') == multiset(middle)
    && |middle| == |bs|
    && forall i :: 0 <= i < |bs| ==> SameNic(middle[i], bs[i])
  }

  function Without<T>(s: seq<T>, i: nat): (r: seq<T>)
    requires i < |s|
    ensures |r| == |s| - 1
  {
    s[..i] + s[i + 1..]
  }

  lemma WithoutFront<T>(s: seq<T>, i: nat)
    requires i < |s|
    ensures var n := |s| - 1; var rest := Without(s, i);
      if i == n then rest == s[..n] else rest != [] && rest[..n - 1] == Without(s[..n], i) && rest[n - 1] == s[n]
  {
  }

  lemma Exchange<U>(a: multiset<U>, b: multiset<U>, c: multiset<U>)
    ensures a + b + c == a + c + b
  {
  }

  lemma {:induction false} CollectWithout<T, U>(s: seq<T>, f: T -> seq<U>, i: nat)
    requires i < |s|
    ensures multiset(Collect(s, f)) == multiset(Collect(Without(s, i), f)) + multiset(f(s[i]))
  {
    hide Collect, Without;
    var n := |s| - 1;
    CollectLast(s, f);
    WithoutFront(s, i);
    if i < n {
      CollectWithout(s[..n], f, i);
      CollectLast(Without(s, i), f);
      Exchange(multiset(Collect(Without(s[..n], i), f)), multiset(f(s[i])), multiset(f(s[n])));
    }
  }

  lemma WithoutMultiset<T>(s: seq<T>, i: nat)
    requires i < |s|
    ensures multiset(Without(s, i)) == multiset(s) - multiset{s[i]}
  {
    assert s == s[..i] + [s[i]] + s[i + 1..];
  }

  lemma CollectLast<T, U>(s: seq<T>, f: T -> seq<U>)
    requires s != []
    ensures var n := |s| - 1;
      multiset(Collect(s, f)) == multiset(Collect(s[..n], f)) + multiset(f(s[n]))
  {
  }

  /** What a loop collects from a permuted list is a permutation of what it collects from the list. */
  lemma {:induction false} CollectPermuted<T, U>(s: seq<T>, t: seq<T>, f: T -> seq<U>)
    requires multiset(s) == multiset(t)
    ensures multiset(Collect(s, f)) == multiset(Collect(t, f))
    decreases |t|
  {
    assert |multiset(s)| == |s| && |multiset(t)| == |t|;
    if t != [] {
      hide Collect, Without;
      var n := |t| - 1;
      assert t[n] in multiset(s);
      var i :| 0 <= i < |s| && s[i] == t[n];
      WithoutMultiset(s, i);
      WithoutMultiset(t, n);
      WithoutFront(t, n);
      CollectPermuted(Without(s, i), t[..n], f);
      CollectWithout(s, f, i);
      CollectLast(t, f);
    }
  }

  lemma {:induction false} CollectPointwise<T, U>(s: seq<T>, t: seq<T>, f: T -> seq<U>)
    requires |s| == |t| && forall i :: 0 <= i < |s| ==> multiset(f(s[i])) == multiset(f(t[i]))
    ensures multiset(Collect(s, f)) == multiset(Collect(t, f))
  {
    if s != [] { CollectPointwise(s[..|s| - 1], t[..|t| - 1], f); }
  }

  lemma SameNicSameIps(v6: V6Parser, a: Nic, b: Nic)
    requires SameNic(a, b)
    ensures multiset(NicIps(v6)(a)) == multiset(NicIps(v6)(b))
  {
    hide Usable, Collect;
    assert SameInfo(InfoOf(a), InfoOf(b));
    CollectPermuted(InfoOf(a).learned, InfoOf(b).learned, LearnedIp(v6));
  }

  lemma ReorderedIps(v6: V6Parser, as': seq<Nic>, middle: seq<Nic>, bs: seq<Nic>)
    requires Reordered(as', middle, bs)
    ensures multiset(Ips(v6, as')) == multiset(Ips(v6, bs))
  {
    hide SameNic;
    CollectPermuted(as', middle, NicIps(v6));
    forall i | 0 <= i < |bs| ensures multiset(NicIps(v6)(middle[i])) == multiset(NicIps(v6)(bs[i])) {
      SameNicSameIps(v6, middle[i], bs[i]);
    }
    CollectPointwise(middle, bs, NicIps(v6));
  }

  /**
   Permuting the embedded NICs, the listed NICs, and the learned IPs within each NIC gives the
   identical address list.
   */
  lemma OrderDoesNotMatter(v6: V6Parser, vm: VmView, nics: seq<Nic>, middle: seq<Nic>,
      listed: Option<seq<Nic>>, listed': Option<seq<Nic>>, listedMiddle: seq<Nic>)
    requires Reordered(vm.nics, middle, nics)
    requires listed.Some? <==> listed'.Some?
    requires listed.Some? ==> Reordered(listed.value, listedMiddle, listed'.value)
    ensures NodeAddresses(v6, vm, listed) == NodeAddresses(v6, vm.(nics := nics), listed')
  {
    hide Ips, Reordered;
    ReorderedIps(v6, vm.nics, middle, nics);
    if listed.Some? { ReorderedIps(v6, listed.value, listedMiddle, listed'.value); }
    var found, found' := FoundIps(v6, vm, listed), FoundIps(v6, vm.(nics := nics), listed');
    assert |multiset(Ips(v6, vm.nics))| == |Ips(v6, vm.nics)| && |multiset(Ips(v6, nics))| == |Ips(v6, nics)|;
    assert multiset(found) == multiset(found');
    SortForgetsOrder(found, found');
  }
}
