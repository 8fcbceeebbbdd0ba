# homedns in Dafny

homedns keeps a Linode-managed DNS A record pointing at the machine's public
IPv4 address. One run asks an HTTP echo service for the address, checks that
exactly one dotted-quad-shaped text was found, that it parses and that the
address is public, then fetches the zone and its A records, picks the first
record with the requested name, and creates it, updates its target, or leaves
it alone.

This project models that run as total functions over octets, strings and
lists. The network is outside the model: the echo body, the pattern matches
and the provider's replies are inputs, and the provider calls a run makes are
returned as values.

| file | module | what it models |
|---|---|---|
| `results.dfy` | `Results` | `Option` (nil-able values) and `Result` (Go's `(value, error)` pairs) |
| `decimal.dfy` | `Decimal` | `strconv.Itoa`, with a strict reader as its inverse |
| `ipv4.dfy` | `Ipv4` | four-octet addresses and `IsPublicIP`, with the rejected CIDR blocks as a reference definition |
| `resolver.dfy` | `Resolver` | the count / parse / public gate of `GetPublicIP` |
| `records.dfy` | `Records` | zones, A records, and first-match record selection (recursive definition and the `for` loop) |
| `reconcile.dfy` | `Reconcile` | the create / update / no-op decision, the update parameter map, the provider's record list after a write |
| `flags.dfy` | `Flags` | the missing-required-flag list of `init` |
| `homedns.dfy` | `HomeDns` | the flag check followed by one whole run of `main`, as a sequence of provider calls and an outcome; the provider's handling of a write |

Main results:

- `IsPublicIP` accepts an address exactly when it lies outside 127.0.0.0/8,
  169.254.0.0/16, 224.0.0.0/24, 10.0.0.0/8, 172.16.0.0/12 and 192.168.0.0/16,
  where the blocks are defined as ranges of the 32-bit address value. Nothing
  else is rejected: 0.0.0.0, 255.255.255.255 and 100.64.0.1 count as public.
- A run that refuses the echo response makes no provider call. A run makes at
  most one write, as its last call, and it writes only the address the gate
  accepted.
- Reconciliation converges. After the decided write is applied to the
  provider's record list, the record the next run selects already holds the
  current address, so that run writes nothing.
- An update goes out as the text request `UpdateDomainResourceTarget` builds.
  Its `DomainID` and `ResourceID` parameters read back as the selected
  record's own identifiers, so the provider retargets the records carrying
  those identifiers, the selected record among them.

## Model

| member | source | states |
|---|---|---|
| `Ipv4.IsPublicIffOutsideRejectedBlocks` | main.go:50-67 | `Ipv4.IsPublic`, the model of `IsPublicIP`, holds of an address exactly when it lies in none of the loopback, link-local unicast, link-local multicast and three RFC 1918 blocks, stated as 32-bit ranges |
| `Ipv4.SpecialPurposeNotPublic` | main.go:51-53 | loopback (127/8), link-local unicast (169.254/16) and link-local multicast (224.0.0/24) addresses are not public |
| `Ipv4.Private172Exactly` | main.go:61-62 | among 172.x.y.z, an address is rejected exactly when x is between 16 and 31 |
| `Ipv4.PublicExamples` | main.go:58-66 | 203.0.113.7, 172.15.0.1, 172.32.0.1, 224.0.1.1, 169.253.0.1, 0.0.0.0, 255.255.255.255 and 100.64.0.1 are public; 10.0.0.5 and 192.168.1.1 are not |
| `Resolver.ResolvePublicAddress` | main.go:79-91 | success exactly when there is one match, it parses and the address is public, and then the result is that address; otherwise exactly one of the three errors, each for its own condition and carrying the body or the match text |
| `Resolver.ResolvedAddressOutsideRejectedBlocks` | main.go:88-91 | an address the gate returns lies in none of the rejected blocks |
| `Resolver.PrivateEchoRejected` | main.go:83-89 | the body "Current IP Address: 10.0.0.5" is refused with the private-address error |
| `Records.FirstNamed` | main.go:139-145 | the index returned names a record with the requested name and no earlier record has it; no index exactly when no record has the name |
| `Records.Lookup` | main.go:139-145 | no record exactly when none has the requested name; otherwise the record at some position that has the name, with no earlier record having it |
| `Records.SelectExisting` | main.go:139-145 | the loop that stops at the first match returns the same record as the first-match definition |
| `Records.LaterDuplicateNeverChosen` | main.go:140-144 | when two records share the name, the one chosen is not after the earlier of them |
| `Records.NameMatchIsCaseSensitive` | main.go:141 | a record named "Home" is not selected for the name "home" |
| `Reconcile.Decide` | main.go:146-162 | create with the zone's id, the name, the address text and TTL 300 exactly when no record exists; update with the record's own ids and the new text exactly when the target differs; no-op exactly when the target equals the address text |
| `Reconcile.UpdateRequest` | main.go:38-45 | the request is "domain.resource.update" with exactly the keys DomainID, ResourceID and Target, Target being the new address text |
| `Reconcile.UpdateRequestIdentifiesRecord` | main.go:39-43 | the DomainID and ResourceID parameters read back as the record's identifiers |
| `Reconcile.UpdateRequestInjective` | main.go:39-43 | two update requests are equal exactly when their identifiers and targets are equal |
| `Reconcile.ReconcileConverges` | main.go:146-162 | after the decided write, the selected record holds the address text and a second decision is no-op |
| `Decimal.ReadIntItoa` | main.go:40-41 | the decimal text of an identifier reads back as the identifier |
| `Decimal.ReadIntOnlyItoa` | main.go:40-41 | a text the strict reader accepts as a number is exactly the decimal text of that number, so the reader and the writer are inverse |
| `Decimal.ItoaInjective` | main.go:40-41 | distinct identifiers have distinct decimal texts |
| `Flags.MissingParams` | main.go:105-114 | "key", "domain" and "name" are listed exactly when their flag is empty, and the list is empty exactly when all three are set |
| `Flags.MissingParamsInFlagOrder` | main.go:105-114 | the list equals the names of the empty flags taken in the order key, domain, name |
| `Flags.LoadConfig` | main.go:105-117 | the run proceeds exactly when all three flags are set; otherwise it stops with the non-empty missing list |
| `HomeDns.WriteCall` | main.go:146-157 | every decision that writes becomes a write call: a create decision a create call, an update decision a raw API request (the call's arguments are pinned, at the level of their effect, by `HomeDns.ProviderCarriesOutDecision`) |
| `HomeDns.Run` | main.go:120-162 | a refused echo response stops the run with no provider call; a zone-read error stops it after the zone read, and a record-read error after both reads, each with its own failure and message; otherwise the run makes both reads, then writes exactly the call for the decision taken on the first record with the name, as the last call, or nothing when that decision is no-op; "created" and "updated" mean that write was a create or an update and the provider reported no error, and a write error stops the run as a create or update failure carrying the provider's message |
| `HomeDns.Process` | main.go:105-121 | missing flags stop the process with the missing list and no provider call, exactly when some flag is empty; otherwise the process is one run with those three values |
| `HomeDns.ProviderCarriesOutDecision` | main.go:38-45 | the call sent for a decision, an update read back from its text parameters, changes the provider's record list exactly as the decision prescribes |
| `HomeDns.RunIsIdempotent` | main.go:139-162 | a second run against the record list the first run's write call produced reports "already correct" and writes nothing |
| `HomeDns.CreateScenario` | main.go:146-151 | with no "home" record, the run calls GetDomain, GetResourcesByType for "A", then creates ("home", "203.0.113.7", TTL 300) and reports created |
| `HomeDns.UpdateScenario` | main.go:153-158 | when "home" points at another address, the run makes the two reads and sends one update request with the record's ids and "203.0.113.7", and reports updated |
| `HomeDns.AlreadyCorrectScenario` | main.go:153-161 | when "home" already points at 203.0.113.7, the run makes the two reads only and reports already correct |
| `HomeDns.PrivateAddressScenario` | main.go:121-124 | an echo body with 10.0.0.5 stops the run with the private-address error before any provider call |

## Left out

- The HTTP GET to checkip.dyndns.org and reading the body (main.go:70-78): network I/O. The body is an input, and transport errors are not modelled.
- The regular expression `ipv4Matcher` and its `FindAll` (main.go:36, main.go:79): library code. Its matches are a given list of strings.
- `net.ParseIP` and `IP.String` (main.go:84, main.go:125): library code. They are the function parameters `parse` and `format` of `HomeDns.Run`.
- The `To4() == nil` branch (main.go:54-57): unreachable once an address is four octets. A dotted-quad match has no colon, so `net.ParseIP` only returns IPv4 addresses for it.
- `dns.New`, `GetDomain`, `GetResourcesByType`, `CreateDomainResourceA` and `lin.Request` (main.go:44-45, main.go:127-147, main.go:154): foreign library and network calls. Their replies are inputs (`HomeDns.Replies`), and the calls are returned as `HomeDns.Call` values.
- HomeDns.Run: the `GetDomain` call value does not carry the API key that `dns.New` is given (main.go:127), because the key only authenticates the client.
- Reconcile.Apply and HomeDns.ProviderApply: the provider's behaviour on a write is an assumption, since the provider is not part of this model. A created record gets a caller-chosen identifier and is inserted at a caller-chosen position. An update rewrites the target of every record that carries the given identifiers. The model does not assume that provider identifiers are unique.
- Flag parsing, the usage text, `debugf`/`debugln`, `fatalf`/`fatalln` and `os.Exit` (main.go:94-104, main.go:115-116, log.go): CLI and logging plumbing. A fatal stop is a `Result` error. The text of the error messages and of the final status lines is not modelled.
- HomeDns.Process: the HTTP request to the echo service is not a recorded call, so the model does not state that missing flags also stop the process before that request.
- Go's `int` is 64-bit, while identifiers here are unbounded integers. Nothing in the core does arithmetic on them.

The model follows the code in three places where a reader might expect stricter or different behaviour:

- 0.0.0.0, broadcast and 100.64/10 count as public.
- Among multicast addresses, only 224.0.0.0/24 is rejected.
- The final status lines print only with `-verbose`.
