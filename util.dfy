/**
 The helper layer of the static-IP provider: classifying network devices as
 DHCP or static, validating and unpacking an allocated IP address, copying the
 pool's DNS servers and search domains, and naming the IP claim of a device.
 The ipam objects are not modelled; each getter's `(value, error)` result is an
 input.
 */
module Util {
  import opened Results
  import Decimal

  /** The allocation flags of a vSphere network device; no other field is read here. */
  datatype NetworkDeviceSpec = NetworkDeviceSpec(dhcp4: bool, dhcp6: bool)

  /** What the getters of an allocated `ipam.IPAddress` return. */
  datatype IPAddress = IPAddress(address: Result<string>, gateway: Result<string>, mask: Result<int>)

  /** What the getters of an `ipam.IPPool` return. */
  datatype IPPool = IPPool(dnsServers: Result<seq<string>>, searchDomains: Result<seq<string>>)

  // ---------------------------------------------------------------- DHCP

  /** A device is DHCP unless both of its DHCP flags are off. */
  function IsDeviceIPAllocationDHCP(device: NetworkDeviceSpec): (isDHCP: bool)
    ensures !isDHCP <==> device == NetworkDeviceSpec(false, false)
  {
    if device.dhcp4 || device.dhcp6 then true else false
  }

  /** The reference meaning of a DHCP machine: every one of its devices is DHCP. */
  predicate AllDevicesDHCP(devices: seq<NetworkDeviceSpec>) {
    forall i :: 0 <= i < |devices| ==> IsDeviceIPAllocationDHCP(devices[i])
  }

  /**
   Scans every device and clears the flag at each one whose two DHCP flags are
   off; the scan does not stop early.
   */
  method IsMachineIPAllocationDHCP(devices: seq<NetworkDeviceSpec>) returns (isDHCP: bool)
    ensures isDHCP <==> AllDevicesDHCP(devices)
    ensures devices == [] ==> isDHCP
  {
    isDHCP := true;
    for i := 0 to |devices|
      invariant isDHCP <==> AllDevicesDHCP(devices[..i])
    {
      var dev := devices[i];
      if !dev.dhcp4 && !dev.dhcp6 {
        isDHCP := false;
      }
      assert devices[..i + 1] == devices[..i] + [dev];
    }
    assert devices[..|devices|] == devices;
  }

  /** One static device, anywhere in the list, makes the machine static. */
  lemma StaticDeviceMakesMachineStatic(before: seq<NetworkDeviceSpec>, device: NetworkDeviceSpec, after: seq<NetworkDeviceSpec>)
    requires !device.dhcp4 && !device.dhcp6
    ensures !AllDevicesDHCP(before + [device] + after)
  {
    assert (before + [device] + after)[|before|] == device;
  }

  /** A machine made of two device lists is DHCP exactly when both parts are. */
  lemma AllDevicesDHCPConcat(a: seq<NetworkDeviceSpec>, b: seq<NetworkDeviceSpec>)
    ensures AllDevicesDHCP(a + b) <==> AllDevicesDHCP(a) && AllDevicesDHCP(b)
  {
    if AllDevicesDHCP(a + b) {
      forall i | 0 <= i < |a| ensures IsDeviceIPAllocationDHCP(a[i]) {
        assert (a + b)[i] == a[i];
      }
      forall i | 0 <= i < |b| ensures IsDeviceIPAllocationDHCP(b[i]) {
        assert (a + b)[|a| + i] == b[i];
      }
    }
    if AllDevicesDHCP(a) && AllDevicesDHCP(b) {
      forall i | 0 <= i < |a + b| ensures IsDeviceIPAllocationDHCP((a + b)[i]) {
        if i < |a| { assert (a + b)[i] == a[i]; } else { assert (a + b)[i] == b[i - |a|]; }
      }
    }
  }

  /** The classification does not depend on the order of the devices. */
  lemma AllDevicesDHCPIgnoresOrder(a: seq<NetworkDeviceSpec>, b: seq<NetworkDeviceSpec>)
    requires multiset(a) == multiset(b)
    ensures AllDevicesDHCP(a) <==> AllDevicesDHCP(b)
  {
    forall x, y: seq<NetworkDeviceSpec> | multiset(x) == multiset(y) && AllDevicesDHCP(x)
      ensures AllDevicesDHCP(y)
    {
      forall k | 0 <= k < |y| ensures IsDeviceIPAllocationDHCP(y[k]) {
        assert y[k] in multiset(x);
        var j :| 0 <= j < |x| && x[j] == y[k];
      }
    }
  }

  // ---------------------------------------------------------------- IP address

  const InvalidAddress := Error("invalid 'address' in IPAddress")
  const InvalidGateway := Error("invalid 'gateway' in IPAddress")

  /** The address is checked before the gateway; a lookup error wins over emptiness. */
  function ValidateIP(ip: IPAddress): (r: Outcome)
    ensures r.Pass? <==> ip.address.Ok? && ip.address.value != "" && ip.gateway.Ok? && ip.gateway.value != ""
    ensures ip.address.Err? ==> r == Fail(ip.address.error)
    ensures ip.address == Ok("") ==> r == Fail(InvalidAddress)
    ensures ip.address.Ok? && ip.address.value != "" && ip.gateway.Err? ==> r == Fail(ip.gateway.error)
    ensures ip.address.Ok? && ip.address.value != "" && ip.gateway == Ok("") ==> r == Fail(InvalidGateway)
  {
    match ip.address
    case Err(e) => Fail(e)
    case Ok(addr) =>
      if addr == "" then Fail(InvalidAddress)
      else
        match ip.gateway
        case Err(e) => Fail(e)
        case Ok(gat) => if gat == "" then Fail(InvalidGateway) else Pass
  }

  /** When the address is unusable, the gateway is not consulted. */
  lemma ValidateIPChecksAddressFirst(ip: IPAddress, gateway: Result<string>)
    requires ip.address.Err? || ip.address.value == ""
    ensures ValidateIP(ip.(gateway := gateway)) == ValidateIP(ip)
  {
  }

  function GetAddress(ip: IPAddress): (a: string)
    ensures ip.address.Ok? ==> a == ip.address.value
    ensures ip.address.Err? ==> a == ""
  {
    match ip.address
    case Ok(a) => a
    case Err(_) => ""
  }

  function GetGateway(ip: IPAddress): (g: string)
    ensures ip.gateway.Ok? ==> g == ip.gateway.value
    ensures ip.gateway.Err? ==> g == ""
  {
    match ip.gateway
    case Ok(g) => g
    case Err(_) => ""
  }

  function GetMask(ip: IPAddress): (m: int)
    ensures ip.mask.Ok? ==> m == ip.mask.value
    ensures ip.mask.Err? ==> m == 0
  {
    match ip.mask
    case Ok(m) => m
    case Err(_) => 0
  }

  /** An address passes validation exactly when both defaulting getters yield a non-empty string. */
  lemma ValidateIPAgreesWithGetters(ip: IPAddress)
    ensures ValidateIP(ip).Pass? <==> GetAddress(ip) != "" && GetGateway(ip) != ""
  {
  }

  // ---------------------------------------------------------------- pool lists

  /** Appends the elements of `src` one at a time to a fresh list. */
  method CopyStrings(src: seq<string>) returns (dst: seq<string>)
    ensures |dst| == |src|
    ensures forall k :: 0 <= k < |src| ==> dst[k] == src[k]
  {
    dst := [];
    for i := 0 to |src|
      invariant dst == src[..i]
    {
      dst := dst + [src[i]];
    }
  }

  method GetDNSServers(pool: IPPool) returns (dnsServers: seq<string>)
    ensures pool.dnsServers.Ok? ==> dnsServers == pool.dnsServers.value
    ensures pool.dnsServers.Err? ==> dnsServers == []
  {
    dnsServers := [];
    if pool.dnsServers.Ok? {
      dnsServers := CopyStrings(pool.dnsServers.value);
    }
  }

  method GetSearchDomains(pool: IPPool) returns (searchDomains: seq<string>)
    ensures pool.searchDomains.Ok? ==> searchDomains == pool.searchDomains.value
    ensures pool.searchDomains.Err? ==> searchDomains == []
  {
    searchDomains := [];
    if pool.searchDomains.Ok? {
      searchDomains := CopyStrings(pool.searchDomains.value);
    }
  }

  // ---------------------------------------------------------------- claim names

  /**
   The name of the IP claim of a device: the owner's name, a dash, and the
   device index in decimal. The index can be read back from the name.
   */
  function GetFormattedClaimName(ownerName: string, deviceCount: int): (name: string)
    ensures name == ownerName + "-" + Decimal.FormatInt(deviceCount)
    ensures |name| >= |ownerName| + 2
    ensures name[..|ownerName| + 1] == ownerName + "-"
    ensures Decimal.ParseInt(name[|ownerName| + 1..]) == Some(deviceCount)
  {
    var name := ownerName + "-" + Decimal.FormatInt(deviceCount);
    assert name[|ownerName| + 1..] == Decimal.FormatInt(deviceCount);
    Decimal.FormatIntRoundTrip(deviceCount);
    name
  }

  /** For one owner, distinct device indices give distinct claim names. */
  lemma ClaimNameInjective(ownerName: string, i: int, j: int)
    requires GetFormattedClaimName(ownerName, i) == GetFormattedClaimName(ownerName, j)
    ensures i == j
  {
  }

  /**
   A claim name of a shorter owner with a non-negative index never equals one
   of a longer owner: the longer owner's dash would fall on a digit.
   */
  lemma ClaimNamesOfDifferentLengthOwnersDiffer(short: string, i: int, long: string, j: int)
    requires |short| < |long| && i >= 0
    ensures GetFormattedClaimName(short, i) != GetFormattedClaimName(long, j)
  {
    var s := GetFormattedClaimName(short, i);
    var digits := Decimal.FormatInt(i);
    assert s == short + "-" + digits;
    if |long| < |s| {
      assert s[|long|] == digits[|long| - |short| - 1];
      assert Decimal.IsDigit(s[|long|]);
      assert GetFormattedClaimName(long, j)[|long|] == '-';
    } else {
      assert |GetFormattedClaimName(long, j)| > |s|;
    }
  }

  /** With non-negative device indices a claim name determines both its owner and its index. */
  lemma ClaimNamesUnique(o1: string, i1: int, o2: string, i2: int)
    requires i1 >= 0 && i2 >= 0
    ensures GetFormattedClaimName(o1, i1) == GetFormattedClaimName(o2, i2) ==> o1 == o2 && i1 == i2
  {
    if GetFormattedClaimName(o1, i1) != GetFormattedClaimName(o2, i2) {
    } else if |o1| < |o2| {
      ClaimNamesOfDifferentLengthOwnersDiffer(o1, i1, o2, i2);
    } else if |o2| < |o1| {
      ClaimNamesOfDifferentLengthOwnersDiffer(o2, i2, o1, i1);
    } else {
      var n := GetFormattedClaimName(o1, i1);
      assert o1 == n[..|o1| + 1][..|o1|] == o2;
      ClaimNameInjective(o1, i1, i2);
    }
  }

  /** A negative index lets two owners share a claim name: "m" with -1 and "m-" with 1 both give "m--1". */
  lemma ClaimNamesCollideForNegativeIndex()
    ensures GetFormattedClaimName("m", -1) == GetFormattedClaimName("m-", 1) == "m--1"
  {
    assert Decimal.FormatInt(-1) == "-1";
    assert Decimal.FormatInt(1) == "1";
  }
}
