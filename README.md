# Static-IP provider helper layer, in Dafny

This project models the helper layer (`pkg/util/util.go`) of a Cluster API
vSphere add-on. The add-on gives machines and clusters static IP addresses
from an IP pool, so that nodes need no DHCP client. The helpers do four jobs:

- **DHCP classification.** A network device is DHCP when its DHCP4 or DHCP6
  flag is set. A machine is DHCP only when every one of its devices is. An
  empty device list counts as DHCP.
- **Address validation.** `ValidateIP` checks an allocated `ipam.IPAddress`.
  It checks the address first and the gateway second. A lookup error is
  returned as it is; an empty string becomes its own "invalid" error.
- **Defaulting accessors.** These read the address, the gateway, the mask and
  the pool's DNS servers and search domains. On a lookup error they fall back
  to `""`, `0` or the empty list.
- **Claim naming.** The IP claim of device `i` of owner `o` is named
  `o-<i in decimal>`.

The ipam objects are not modelled. Each getter's `(value, error)` return is an
input of type `Results.Result`. Go's `error` return is a `Results.Outcome`
(`Pass` for `nil`). Go's `%d` formatting is modelled in module `Decimal`,
together with a parser that inverts it.

Files: `results.dfy` (error and result shapes), `decimal.dfy` (decimal
rendering and its inverse), `util.dfy` (the helpers).

## Model

| member | source | states |
|---|---|---|
| `Util.IsDeviceIPAllocationDHCP` | pkg/util/util.go:26-32 | a device is static (not DHCP) exactly when both its DHCP4 and DHCP6 flags are off |
| `Util.IsMachineIPAllocationDHCP` | pkg/util/util.go:15-24 | the flag-clearing loop returns true iff every device is DHCP by `IsDeviceIPAllocationDHCP`; an empty list gives true |
| `Util.StaticDeviceMakesMachineStatic` | pkg/util/util.go:17-20 | one device with both flags off, at any position and with any neighbours, makes the machine non-DHCP |
| `Util.AllDevicesDHCPConcat` | pkg/util/util.go:15-24 | a device list split in two is DHCP iff both parts are |
| `Util.AllDevicesDHCPIgnoresOrder` | pkg/util/util.go:15-24 | reordering the devices (same multiset) does not change the verdict |
| `Util.ValidateIP` | pkg/util/util.go:34-49 | success iff both lookups succeed with non-empty strings; an address lookup error is returned unchanged; an empty address gives "invalid 'address'"; only then is a gateway error returned, or "invalid 'gateway'" for an empty gateway |
| `Util.ValidateIPChecksAddressFirst` | pkg/util/util.go:35-40 | when the address lookup failed or is empty, the result is the same whatever the gateway lookup returns |
| `Util.GetAddress` | pkg/util/util.go:51-56 | the looked-up address on success, `""` on error |
| `Util.GetGateway` | pkg/util/util.go:58-63 | the looked-up gateway on success, `""` on error |
| `Util.GetMask` | pkg/util/util.go:65-70 | the looked-up mask on success, `0` on error |
| `Util.ValidateIPAgreesWithGetters` | pkg/util/util.go:34-63 | an address validates iff `GetAddress` and `GetGateway` both return non-empty strings |
| `Util.CopyStrings` | pkg/util/util.go:75-77 | the append loop gives a list of the same length holding the same elements in the same order |
| `Util.GetDNSServers` | pkg/util/util.go:72-80 | the pool's DNS server list, element for element and in order, on success; the empty list on error |
| `Util.GetSearchDomains` | pkg/util/util.go:82-90 | the pool's search domain list, element for element and in order, on success; the empty list on error |
| `Util.GetFormattedClaimName` | pkg/util/util.go:115-117 | the name is `ownerName`, a dash, and `%d` of the index (`FormatInt`); it starts with `ownerName + "-"`, and the rest parses back to the device index |
| `Util.ClaimNameInjective` | pkg/util/util.go:115-117 | for a fixed owner, distinct device indices give distinct claim names |
| `Util.ClaimNamesOfDifferentLengthOwnersDiffer` | pkg/util/util.go:115-117 | a shorter owner with a non-negative index never shares a claim name with a longer owner |
| `Util.ClaimNamesUnique` | pkg/util/util.go:115-117 | with non-negative indices, a claim name determines both the owner and the device index |
| `Util.ClaimNamesCollideForNegativeIndex` | pkg/util/util.go:115-117 | with a negative index the owner is not determined: `("m", -1)` and `("m-", 1)` both give `m--1` |
| `Decimal.NatDigits` | pkg/util/util.go:116 | the digits of a natural number: non-empty, all decimal digits, no leading zero, and the digits are exactly `0` for 0 |
| `Decimal.FormatInt` | pkg/util/util.go:116 | `%d` of an int: starts with `-` iff the number is negative, every other character is a digit, at least one digit follows the sign, and no leading zero: the digits are exactly `0` for 0 |
| `Decimal.NatDigitsRoundTrip` | pkg/util/util.go:116 | parsing the digits of `n` gives back `n` |
| `Decimal.FormatIntRoundTrip` | pkg/util/util.go:116 | parsing `%d` of `i` gives back `i` |
| `Decimal.FormatIntInjective` | pkg/util/util.go:116 | distinct integers print differently |

## Left out

- `IgnoreNotFound` (pkg/util/util.go:92-97): it only wraps the Kubernetes apimachinery not-found test, which is not part of this model.
- `GetObjRef` (pkg/util/util.go:99-113): it only copies fields from Kubernetes metadata accessors, which are not part of this model.
- The `ipam.IPAddress` and `ipam.IPPool` implementations are not part of this model. Each getter is assumed to return the same answer every time it is called. `ValidateIP` and `GetAddress` each call `GetAddress()` separately, so this assumption matters.
- When a Go getter returns an error, the value it returns with it is ignored by every helper. `Result.Err` therefore carries no value.
- Go errors are compared by message only. The identity of an error value is not modelled.
- The `string(...)` conversions from the ipam string types are identity functions here.
- Go strings are byte sequences and may hold invalid UTF-8; Dafny strings are sequences of characters. No helper depends on the difference: they only compare with `""`, concatenate and copy.
- Go's `int` is 64 bits wide. Indices and masks are unbounded `int` here. `%d` has no overflow, so formatting and parsing are unaffected.
- The other fields of `NetworkDeviceSpec` (network name, addresses, gateways, nameservers) are not read by these helpers, so they are not modelled.
- `main.go` (flag parsing, logger and controller-manager wiring) is I/O and plumbing over external libraries.
- The integration tests' environment setup and YAML loading are I/O.
- The machine and cluster reconcilers, claim creation and fulfilment, pool allocation and release, and requeue with backoff are not part of this model. Their code lies outside the helper layer.
- `IsMachineIPAllocationDHCP` is a loop that clears a flag, as in the code. Its meaning is the predicate `AllDevicesDHCP`, which the loop is proved to compute.
