# Azure DNS provider, Azure tasks and Azure model builders of kops

This project models the Azure-specific core of kops in Dafny and proves
properties of that model. It has three layers.

- **The `armdns` DNS provider.** This is the kops `dnsprovider` facade over
  Azure public and private DNS zones.
  - Zones are listed across the public-zone pager and the private-zone list.
  - A zone hands out its record-set collection, bound to the client for its
    zone type.
  - Record sets are listed, looked up and built. A record set type reads back
    as `"A"`.
  - A changeset queues removals, additions and upserts. `Apply` sends every
    deletion first, then every create-or-update, and stops at the first
    failing call.
  - A record name is made relative to its zone with the
    regular expression `.<zone>.*`, as Go's RE2 reads it.
- **The `azuretasks` reconciliation tasks.** These cover application security
  groups, network security groups, DNS zones and DNS record sets. For each,
  the model has:
  - `Find`, which scans the cloud listing for the desired name;
  - `CheckChanges`, which requires a name on creation and, except for record sets, forbids renames;
  - `RenderAzure`, which sends one create-or-update built from the desired
    state;
  - `Run`, whose cluster-tag merge appears as `TagsForRun`.
- **The `azuremodel` builders.** These emit tasks into the builder context.
  - The network builder emits the virtual network, one subnet per subnet
    specification, and an owned route table.
  - The DNS builder emits the zone for a load-balanced API endpoint.
  - The firewall builder emits the application security groups of nodes and
    masters. It also emits the network security groups of masters, one per
    distinct override, plus a default group only when some master instance
    group sets no override; each carries the five or four master rules.

Every cloud call goes through `CloudBackend.Backend<C>`. This class records
the calls issued, in order. The set `failing` holds the indices of the calls
that fail. This lets each method state exactly which calls it made and which
error it returned. Listing responses are parameters: a sequence of pager
pages, each either values or an error.

## Model

| member | source | states |
|---|---|---|
| CloudBackend.Backend.constructor | dnsprovider/pkg/dnsprovider/providers/azure/armdns/interface.go:28-38 | a new backend has issued no call and fails exactly at the given call indices |
| CloudBackend.Backend.Call | dnsprovider/pkg/dnsprovider/providers/azure/armdns/rrchangeset.go:65-69 | one call is appended to the trace; it fails iff its index is a failing index, and the error names that index |
| CloudBackend.Outcome | dnsprovider/pkg/dnsprovider/providers/azure/armdns/rrchangeset.go:65-69 | a call's error is present iff its index fails, and then carries that index |
| CloudBackend.Succeeding | dnsprovider/pkg/dnsprovider/providers/azure/armdns/rrchangeset.go:61-92 | the number of calls of a run that succeed before the first failure: none of them fails, and the next one (if any) does |
| CloudBackend.StepFails | dnsprovider/pkg/dnsprovider/providers/azure/armdns/rrchangeset.go:67-69 | when the first failure is at call `p`, the run issued exactly the first `p + 1` calls and returns that call's error |
| CloudBackend.StepSucceeds | dnsprovider/pkg/dnsprovider/providers/azure/armdns/rrchangeset.go:61-92 | a call that succeeds after only successes extends the successful prefix |
| CloudBackend.RunCompletes | dnsprovider/pkg/dnsprovider/providers/azure/armdns/rrchangeset.go:94 | when no call of the run fails, all of them are issued and no error is returned |
| CloudBackend.DrainFailureSticks | dnsprovider/pkg/dnsprovider/providers/azure/armdns/zones.go:42-46 | once a page errors, the pager's result is that error whatever pages follow |
| CloudBackend.DrainSucceedsIffNoPageFails | dnsprovider/pkg/dnsprovider/providers/azure/armdns/rrsets.go:25-41 | draining the pager succeeds iff no page errors |
| CloudBackend.DrainConcatenates | dnsprovider/pkg/dnsprovider/providers/azure/armdns/rrsets.go:25-41 | draining error-free pages yields their values concatenated in page order |
| AzureDns.LeftmostMatch | dnsprovider/pkg/dnsprovider/providers/azure/armdns/dns.go:69-71 | the leftmost position at which `.<zone>.*` matches (a non-newline character, then the zone): it matches there and nowhere before; none means no match at or after the start |
| AzureDns.LineEnd | dnsprovider/pkg/dnsprovider/providers/azure/armdns/dns.go:69-71 | the end of `.*` after a match: the next newline or the end of the text, with no newline skipped |
| AzureDns.ReplaceMatches | dnsprovider/pkg/dnsprovider/providers/azure/armdns/dns.go:71 | removing every match never lengthens the name, and on one-line text leaves a prefix of it |
| AzureDns.AzureRelativeRecordSetName | dnsprovider/pkg/dnsprovider/providers/azure/armdns/dns.go:68-72 | the relative name is a prefix of a one-line FQDN: the text before the first match, or the whole name when nothing matches |
| AzureDns.MatchInPrefix | dnsprovider/pkg/dnsprovider/providers/azure/armdns/dns.go:69-71 | a match inside a prefix of the name is a match in the name |
| AzureDns.RelativeNameIdempotent | dnsprovider/pkg/dnsprovider/providers/azure/armdns/dns.go:68-72 | resolving an already relative name changes nothing |
| AzureDns.StripsZoneSuffix | dnsprovider/pkg/dnsprovider/providers/azure/armdns/dns.go:68-72 | `r + "." + zone` resolves to `r` when no earlier match exists |
| AzureDns.ResolvesAt | dnsprovider/pkg/dnsprovider/providers/azure/armdns/dns.go:68-72 | when the first match is at `n`, the relative name is the first `n` characters |
| AzureDns.ExampleWww | dnsprovider/pkg/dnsprovider/providers/azure/armdns/dns.go:68-72 | `www.example.com` in zone `example.com` is `www` |
| AzureDns.ExampleTrailingText | dnsprovider/pkg/dnsprovider/providers/azure/armdns/dns.go:69 | the trailing `.*` removes text after the zone: `a.example.com.extra` gives `a` |
| AzureDns.ExampleWildcardDot | dnsprovider/pkg/dnsprovider/providers/azure/armdns/dns.go:69 | the zone's dots are unescaped and match any character: `wwwxexample.com` gives `www` |
| AzureDnsZone.ClientKindFor | dnsprovider/pkg/dnsprovider/providers/azure/armdns/zone.go:62-77 | the public client serves exactly the public zone type |
| AzureDnsZone.Zone.Name | dnsprovider/pkg/dnsprovider/providers/azure/armdns/zone.go:41-46 | the name of the zone variant its type selects |
| AzureDnsZone.Zone.ID | dnsprovider/pkg/dnsprovider/providers/azure/armdns/zone.go:48-53 | the ID of the zone variant its type selects |
| AzureDnsZone.Zone.ResourceRecordSets | dnsprovider/pkg/dnsprovider/providers/azure/armdns/zone.go:55-78 | the collection is bound to the zone and holds exactly one client, public or private as the zone type says, for the configured subscription; it is always supported |
| AzureDnsZone.ResourceRecordSets.Zone | dnsprovider/pkg/dnsprovider/providers/azure/armdns/rrsets.go:158-160 | the collection gives back the zone it was built for |
| AzureDnsZone.BuiltCollectionRoutes | dnsprovider/pkg/dnsprovider/providers/azure/armdns/zone.go:55-78 | the built collection routes every call to the client of the zone's type |
| AzureDnsZone.InactiveVariantIgnored | dnsprovider/pkg/dnsprovider/providers/azure/armdns/zone.go:41-53 | changing the variant the type does not select changes neither name nor ID |
| AzureDnsZones.List | dnsprovider/pkg/dnsprovider/providers/azure/armdns/zones.go:35-72 | the method's zones and error are those of the listing specification |
| AzureDnsZones.ListPublicThenPrivate | dnsprovider/pkg/dnsprovider/providers/azure/armdns/zones.go:35-72 | with no errors, the public zones come in page order, then the private zones; each is tagged with its type |
| AzureDnsZones.PublicPageErrorDiscards | dnsprovider/pkg/dnsprovider/providers/azure/armdns/zones.go:42-46 | an error on any public page returns no zones and an error |
| AzureDnsZones.PrivateErrorKeepsPublicZones | dnsprovider/pkg/dnsprovider/providers/azure/armdns/zones.go:57-61 | an error from the private list returns that error together with the public zones already collected |
| AzureDnsZones.Add | dnsprovider/pkg/dnsprovider/providers/azure/armdns/zones.go:74-76 | adding returns the zone unchanged and no error |
| AzureDnsZones.Remove | dnsprovider/pkg/dnsprovider/providers/azure/armdns/zones.go:78-80 | removing never fails |
| AzureDnsZones.New | dnsprovider/pkg/dnsprovider/providers/azure/armdns/zones.go:82-86 | the new zone has an empty type, both variants empty and no name; it is bound to this zone collection |
| AzureDnsZones.NewIgnoresName | dnsprovider/pkg/dnsprovider/providers/azure/armdns/zones.go:82-86 | the requested name does not affect the new zone |
| AzureDnsRrset.ResourceRecordSet.Name | dnsprovider/pkg/dnsprovider/providers/azure/armdns/rrset.go:36-41 | the name of the variant the zone type selects |
| AzureDnsRrset.ResourceRecordSet.Rrdatas | dnsprovider/pkg/dnsprovider/providers/azure/armdns/rrset.go:43-57 | needs the selected A-record list and every address in it, which it dereferences; returns one address per A record of the selected variant, in order |
| AzureDnsRrset.SharedVariableARecords | dnsprovider/pkg/dnsprovider/providers/azure/armdns/rrsets.go:124-128 | with one `rrdata` variable shared by all iterations, one A record per address, each holding the last address |
| AzureDnsRrset.SharedVariableRightIff | dnsprovider/pkg/dnsprovider/providers/azure/armdns/rrsets.go:124-128 | the shared variable gives the intended A records exactly when every address equals the last one |
| AzureDnsRrset.LoopVariable.constructor | dnsprovider/pkg/dnsprovider/providers/azure/armdns/rrsets.go:124 | a loop variable starts holding the value assigned to it |
| AzureDnsRrset.RangeARecords | dnsprovider/pkg/dnsprovider/providers/azure/armdns/rrchangeset.go:109-115 | the loop that points each A record at `rrdata` gives one record per address, in order, with per-iteration variables, and the last address in every record with one shared variable |
| AzureDnsRrset.ResourceRecordSet.Ttl | dnsprovider/pkg/dnsprovider/providers/azure/armdns/rrset.go:59-64 | the TTL of the selected variant |
| AzureDnsRrset.ResourceRecordSet.Type | dnsprovider/pkg/dnsprovider/providers/azure/armdns/rrset.go:66-71 | the type is always `"A"` |
| AzureDnsRrsets.NameAddressMatches | dnsprovider/pkg/dnsprovider/providers/azure/armdns/rrsets.go:73 | as written, comparing the listed name's pointer with the address of the local argument never holds |
| AzureDnsRrsets.NameMatches | dnsprovider/pkg/dnsprovider/providers/azure/armdns/rrsets.go:73 | the intended test holds iff the listed name equals the requested name |
| AzureDnsRrsets.AppendKept | dnsprovider/pkg/dnsprovider/providers/azure/armdns/rrsets.go:72-81 | appending one page keeps the wrapped, filtered prefix equal to the filter of everything seen so far |
| AzureDnsRrsets.Collect | dnsprovider/pkg/dnsprovider/providers/azure/armdns/rrsets.go:21-59 | the loop over public pages, or the single private list, returns the selection specification: the first error, or the kept entries wrapped in order |
| AzureDnsRrsets.FilterAll | dnsprovider/pkg/dnsprovider/providers/azure/armdns/rrsets.go:32-39 | keeping everything keeps the listing unchanged |
| AzureDnsRrsets.List | dnsprovider/pkg/dnsprovider/providers/azure/armdns/rrsets.go:21-59 | list returns every listed record set, wrapped, or the listing error |
| AzureDnsRrsets.Get | dnsprovider/pkg/dnsprovider/providers/azure/armdns/rrsets.go:61-103 | as written, get selects with the pointer comparison |
| AzureDnsRrsets.GetByName | dnsprovider/pkg/dnsprovider/providers/azure/armdns/rrsets.go:61-103 | the corrected get selects the record sets whose name is the requested one |
| AzureDnsRrsets.FilterKeepsExactly | dnsprovider/pkg/dnsprovider/providers/azure/armdns/rrsets.go:72-81 | an entry is kept iff it is listed and passes the test |
| AzureDnsRrsets.FilterNone | dnsprovider/pkg/dnsprovider/providers/azure/armdns/rrsets.go:73 | the pointer comparison keeps nothing |
| AzureDnsRrsets.ListConcatenatesPages | dnsprovider/pkg/dnsprovider/providers/azure/armdns/rrsets.go:25-41 | a public zone's error-free pages list as their concatenation, wrapped |
| AzureDnsRrsets.ListFailsIffListingFails | dnsprovider/pkg/dnsprovider/providers/azure/armdns/rrsets.go:28-31 | a public zone fails iff a page errors; a private zone fails, with the private error, iff its list does |
| AzureDnsRrsets.ListTagsAndBinds | dnsprovider/pkg/dnsprovider/providers/azure/armdns/rrsets.go:33-37 | each listed entry is the SDK value, tagged public iff the zone is public, and bound to this collection |
| AzureDnsRrsets.GetNeverFinds | dnsprovider/pkg/dnsprovider/providers/azure/armdns/rrsets.go:61-103 | as written, get returns an empty list or the listing error, whatever is listed |
| AzureDnsRrsets.GetByNameSelectsNamed | dnsprovider/pkg/dnsprovider/providers/azure/armdns/rrsets.go:61-103 | the corrected get returns exactly the listed entries with that name |
| AzureDnsRrsets.StartChangeset | dnsprovider/pkg/dnsprovider/providers/azure/armdns/rrsets.go:105-110 | a fresh, empty changeset for this zone and collection |
| AzureDnsRrsets.ApplyNothingQueued | dnsprovider/pkg/dnsprovider/providers/azure/armdns/rrchangeset.go:55-59 | applying a just-started changeset, in any zone, named or not, sends nothing and returns no error |
| AzureDnsRrsets.New | dnsprovider/pkg/dnsprovider/providers/azure/armdns/rrsets.go:112-155 | builds the record set of the zone's type from name, addresses, TTL and type, one A record per address by the per-iteration loop |
| AzureDnsRrsets.NewRoundTrip | dnsprovider/pkg/dnsprovider/providers/azure/armdns/rrsets.go:112-155 | reading a new record set gives back its name, TTL and addresses; its type reads "A"; it is tagged by zone type and bound to the collection |
| AzureDnsRrsets.SharedVariableLosesAddresses | dnsprovider/pkg/dnsprovider/providers/azure/armdns/rrsets.go:124-128 | two addresses become two copies of the second; the corrected construction keeps both |
| AzureDnsChangeset.PlanLayout | dnsprovider/pkg/dnsprovider/providers/azure/armdns/rrchangeset.go:61-92 | the plan is one delete per removal, then one put per addition, then one per upsert |
| AzureDnsChangeset.ResourceRecordChangeset.constructor | dnsprovider/pkg/dnsprovider/providers/azure/armdns/rrsets.go:105-110 | a changeset starts with no queued entries |
| AzureDnsChangeset.ResourceRecordChangeset.Add | dnsprovider/pkg/dnsprovider/providers/azure/armdns/rrchangeset.go:40-43 | appends to the additions only and returns the same changeset |
| AzureDnsChangeset.ResourceRecordChangeset.Remove | dnsprovider/pkg/dnsprovider/providers/azure/armdns/rrchangeset.go:45-48 | appends to the removals only and returns the same changeset |
| AzureDnsChangeset.ResourceRecordChangeset.Upsert | dnsprovider/pkg/dnsprovider/providers/azure/armdns/rrchangeset.go:50-53 | appends to the upserts only and returns the same changeset |
| AzureDnsChangeset.ResourceRecordChangeset.IsEmpty | dnsprovider/pkg/dnsprovider/providers/azure/armdns/rrchangeset.go:97-99 | empty iff nothing is queued |
| AzureDnsChangeset.ResourceRecordChangeset.RecordSets | dnsprovider/pkg/dnsprovider/providers/azure/armdns/rrchangeset.go:102-104 | the collection the changeset was started from |
| AzureDnsChangeset.ResourceRecordChangeset.CreateOrUpdateAzureRecordSet | dnsprovider/pkg/dnsprovider/providers/azure/armdns/rrchangeset.go:106-163 | one create-or-update through the zone type's client, keyed by group, zone, relative name and type A, carrying the record set's payload with one A record per address (per-iteration `rrdata`); its error is the call's |
| AzureDnsChangeset.ResourceRecordChangeset.SendDeletes | dnsprovider/pkg/dnsprovider/providers/azure/armdns/rrchangeset.go:61-80 | issues the planned deletes in order and stops at the first failure, returning its error |
| AzureDnsChangeset.ResourceRecordChangeset.SendPuts | dnsprovider/pkg/dnsprovider/providers/azure/armdns/rrchangeset.go:82-92 | issues the planned puts from an offset of the plan and stops at the first failure |
| AzureDnsChangeset.ResourceRecordChangeset.SendWrites | dnsprovider/pkg/dnsprovider/providers/azure/armdns/rrchangeset.go:82-92 | issues the additions' then the upserts' puts and stops at the first failure |
| AzureDnsChangeset.ResourceRecordChangeset.Apply | dnsprovider/pkg/dnsprovider/providers/azure/armdns/rrchangeset.go:55-95 | an empty changeset returns no error and sends nothing, whatever its zone; otherwise it issues the plan's calls up to and including the first failure and returns that call's error, or all of them and no error; the queues are unchanged |
| AzureDnsChangeset.BuiltCollectionServesChangeset | dnsprovider/pkg/dnsprovider/providers/azure/armdns/zone.go:55-78 | a changeset on the zone's own collection uses the client of the zone's type |
| AzureDnsChangeset.EmptyPlan | dnsprovider/pkg/dnsprovider/providers/azure/armdns/rrchangeset.go:56-59 | nothing queued plans no call, on any zone, named or not |
| AzureDnsChangeset.DeletesPrecedeWrites | dnsprovider/pkg/dnsprovider/providers/azure/armdns/rrchangeset.go:61-92 | the plan has one call per queued entry; a call is a delete iff it comes from a removal; no write precedes a delete |
| AzureDnsChangeset.PlanKeysEveryCall | dnsprovider/pkg/dnsprovider/providers/azure/armdns/rrchangeset.go:61-92 | the `i`-th call is keyed by the `i`-th queued entry, with the resource group, zone name, relative name and type A; a put carries that entry's payload |
| AzureDnsChangeset.PayloadCarriesRecordSet | dnsprovider/pkg/dnsprovider/providers/azure/armdns/rrchangeset.go:109-126 | the payload carries the record set's name as name and FQDN, its TTL and its A records, with per-iteration `rrdata` |
| AzureDnsChangeset.SharedVariablePayloadRightIff | dnsprovider/pkg/dnsprovider/providers/azure/armdns/rrchangeset.go:137-143 | with one shared `rrdata` variable the payload is the intended one exactly when every address equals the last one |
| AzureDnsChangeset.SharedVariablePayloadLosesAddress | dnsprovider/pkg/dnsprovider/providers/azure/armdns/rrchangeset.go:109-115 | with one shared `rrdata` variable, two addresses are sent as two copies of the second |
| AzureDnsChangeset.ApplyTwice | dnsprovider/pkg/dnsprovider/providers/azure/armdns/rrchangeset.go:55-95 | with no failures, applying twice succeeds twice and issues the plan twice, because the queues are never cleared |
| AzureDnsChangeset.ExamplePutWww | dnsprovider/pkg/dnsprovider/providers/azure/armdns/rrchangeset.go:106-163 | a put for `www.example.com` in zone `example.com` is keyed by relative name `www` |
| AzureDnsChangeset.ExampleUpsertWww | dnsprovider/pkg/dnsprovider/providers/azure/armdns/rrchangeset.go:88-92 | one upsert plans exactly that put |
| Strings.JoinCons | upup/pkg/fi/cloudup/azuretasks/networksecuritygroup.go:82-87 | joining peels the first part and a separator |
| Strings.FirstIndex | upup/pkg/fi/cloudup/azuretasks/networksecuritygroup.go:82-87 | the first index of a character |
| Strings.Split | upup/pkg/fi/cloudup/azuretasks/networksecuritygroup.go:82-87 | splitting yields at least one part |
| Strings.SplitPeel | upup/pkg/fi/cloudup/azuretasks/networksecuritygroup.go:82-87 | splitting peels the part before the first separator |
| Strings.SplitJoin | upup/pkg/fi/cloudup/azuretasks/networksecuritygroup.go:82-87 | split inverts join on parts free of the separator |
| Strings.JoinInjective | upup/pkg/fi/cloudup/azuretasks/networksecuritygroup.go:82-87 | join is injective on parts free of the separator |
| Strings.ReplaceAll | upup/pkg/fi/cloudup/azuretasks/dnsname.go:127 | removing a literal never lengthens the text |
| Strings.ReplaceAllWithoutOccurrence | upup/pkg/fi/cloudup/azuretasks/dnsname.go:127 | text without the literal is unchanged |
| Strings.ReplaceAllSkipsFirst | upup/pkg/fi/cloudup/azuretasks/dnsname.go:127 | removal skips a prefix with no occurrence and removes the literal that follows it |
| AzureTaskCommon.FirstNamed | upup/pkg/fi/cloudup/azuretasks/networksecuritygroup.go:101-108 | the first listed entry with that name, none before it; none iff no entry has it |
| AzureTaskCommon.FoundAt | upup/pkg/fi/cloudup/azuretasks/networksecuritygroup.go:101-111 | a match needs a desired name; none iff no entry has it |
| AzureTaskCommon.FirstNamedAt | upup/pkg/fi/cloudup/azuretasks/networksecuritygroup.go:101-108 | the first entry with the name is found at its index |
| AzureTaskCommon.FindFirst | upup/pkg/fi/cloudup/azuretasks/networksecuritygroup.go:101-108 | the scan loop stops at the first entry with the desired name |
| AzureTaskCommon.CheckNameChanges | upup/pkg/fi/cloudup/azuretasks/networksecuritygroup.go:129-143 | a name is required iff the resource is new and unnamed; a change is refused iff it exists and the name changes; otherwise no error |
| AzureTaskCommon.SegmentsPrepended | upup/pkg/fi/cloudup/azuretasks/networksecuritygroup.go:82-87 | the resource ID's segments, as a nested concatenation |
| AzureTaskCommon.TailFormat | upup/pkg/fi/cloudup/azuretasks/networksecuritygroup.go:82-87 | the joined tail of a resource ID |
| AzureTaskCommon.HeadFormat | upup/pkg/fi/cloudup/azuretasks/networksecuritygroup.go:82-87 | the joined head of a resource ID |
| AzureTaskCommon.NetworkResourceIdFormat | upup/pkg/fi/cloudup/azuretasks/networksecuritygroup.go:82-87 | the ID reads `/subscriptions/<s>/resourceGroups/<g>/providers/Microsoft.Network/<kind>/<name>` |
| AzureTaskCommon.NetworkResourceIdSplits | upup/pkg/fi/cloudup/azuretasks/networksecuritygroup.go:82-87 | splitting the ID at `/` gives back its segments |
| AzureTaskCommon.NetworkResourceIdInjective | upup/pkg/fi/cloudup/azuretasks/networksecuritygroup.go:82-87 | distinct slash-free components give distinct IDs |
| AzureTasksAsg.Discovered | upup/pkg/fi/cloudup/azuretasks/applicationsecuritygroup.go:67-74 | the found group has the desired name, lifecycle and group name, the listed tags and nothing else |
| AzureTasksAsg.Find | upup/pkg/fi/cloudup/azuretasks/applicationsecuritygroup.go:49-75 | a listing error is returned; otherwise absent iff no entry has the name, else the discovered group of the first match |
| AzureTasksAsg.CheckChanges | upup/pkg/fi/cloudup/azuretasks/applicationsecuritygroup.go:84-98 | a new group needs a name; an existing one refuses a rename; both directions |
| AzureTasksAsg.RenderAzure | upup/pkg/fi/cloudup/azuretasks/applicationsecuritygroup.go:101-119 | exactly one create-or-update of the named group with region and tags; its error is the call's |
| AzureTasksAsg.TagsForRun | upup/pkg/fi/cloudup/azuretasks/applicationsecuritygroup.go:78-81 | run merges the cluster tags into the tags and changes nothing else |
| AzureTasksNsg.ApplicationSecurityGroupIDInjective | upup/pkg/fi/cloudup/azuretasks/networksecuritygroup.go:82-87 | distinct group identities give distinct ID strings |
| AzureTasksNsg.GetSecurityRuleFromTask | upup/pkg/fi/cloudup/azuretasks/networksecuritygroup.go:174-238 | the method builds the translation specification |
| AzureTasksNsg.RuleTranslation | upup/pkg/fi/cloudup/azuretasks/networksecuritygroup.go:174-238 | direction is outbound iff egress; fields are copied; group references are set iff both lists are, one resource ID per group in order |
| AzureTasksNsg.Discovered | upup/pkg/fi/cloudup/azuretasks/networksecuritygroup.go:113-120 | the found group has the desired name, lifecycle and group name, the listed tags and no rules |
| AzureTasksNsg.Find | upup/pkg/fi/cloudup/azuretasks/networksecuritygroup.go:95-121 | a listing error is returned; otherwise absent iff no entry has the name, else the discovered group of the first match |
| AzureTasksNsg.CheckChanges | upup/pkg/fi/cloudup/azuretasks/networksecuritygroup.go:129-143 | a new group needs a name; an existing one refuses a rename; both directions |
| AzureTasksNsg.RenderAzure | upup/pkg/fi/cloudup/azuretasks/networksecuritygroup.go:146-172 | exactly one create-or-update carrying every rule translated, in order; its error is the call's |
| AzureTasksNsg.TagsForRun | upup/pkg/fi/cloudup/azuretasks/networksecuritygroup.go:123-126 | run merges the cluster tags into the tags and changes nothing else |
| AzureTasksDnsZone.VirtualNetworkIdInjective | upup/pkg/fi/cloudup/azuretasks/dnszone.go:57-63 | distinct virtual-network identities give distinct ID strings |
| AzureTasksDnsZone.Discovered | upup/pkg/fi/cloudup/azuretasks/dnszone.go:89-96 | the found zone has the desired name, lifecycle and group name, the listed tags and nothing else |
| AzureTasksDnsZone.Find | upup/pkg/fi/cloudup/azuretasks/dnszone.go:71-97 | a listing error is returned; otherwise absent iff no entry has the name, else the discovered zone of the first match |
| AzureTasksDnsZone.CheckChanges | upup/pkg/fi/cloudup/azuretasks/dnszone.go:105-119 | a new zone needs a name; an existing one refuses a rename; both directions |
| AzureTasksDnsZone.StoreZoneType | upup/pkg/fi/cloudup/azuretasks/dnszone.go:135-149 | storing through the zone-type pointer fails iff the pointer is nil |
| AzureTasksDnsZone.FillProperties | upup/pkg/fi/cloudup/azuretasks/dnszone.go:132-150 | filling properties fails iff the start has no zone type; with one, it gives the intended properties |
| AzureTasksDnsZone.PropertiesAsWritten | upup/pkg/fi/cloudup/azuretasks/dnszone.go:132-150 | as written, the properties start with a nil zone type, so filling them always fails |
| AzureTasksDnsZone.PropertiesSelectZoneType | upup/pkg/fi/cloudup/azuretasks/dnszone.go:132-150 | the intended zone type is private iff the task is private, public otherwise; registration networks are set iff private, naming the cluster's network |
| AzureTasksDnsZone.RenderAzure | upup/pkg/fi/cloudup/azuretasks/dnszone.go:121-159 | exactly one create-or-update with the region, the tags and the intended properties; its error is the call's |
| AzureTasksDnsZone.TagsForRun | upup/pkg/fi/cloudup/azuretasks/dnszone.go:99-102 | run merges the cluster tags into the tags and changes nothing else |
| AzureTasksDnsName.Discovered | upup/pkg/fi/cloudup/azuretasks/dnsname.go:75-82 | the found record set has the desired name, lifecycle and group name and nothing else |
| AzureTasksDnsName.Find | upup/pkg/fi/cloudup/azuretasks/dnsname.go:57-83 | a listing error is returned; otherwise absent iff no entry has the name |
| AzureTasksDnsName.CheckChanges | upup/pkg/fi/cloudup/azuretasks/dnsname.go:90-99 | an error iff the record set is new and unnamed; renames are accepted |
| AzureTasksDnsName.RenameAccepted | upup/pkg/fi/cloudup/azuretasks/dnsname.go:90-99 | unlike the other tasks, a rename of an existing record set passes the check |
| AzureTasksDnsName.RelativeName | upup/pkg/fi/cloudup/azuretasks/dnsname.go:127 | literal removal of `"." + zone` never lengthens the name |
| AzureTasksDnsName.RenderAzure | upup/pkg/fi/cloudup/azuretasks/dnsname.go:101-138 | exactly one create-or-update of an A record set, keyed by the literal relative name, aimed at the load balancer; its error is the call's |
| AzureTasksDnsName.OccurrenceIsMatch | upup/pkg/fi/cloudup/azuretasks/dnsname.go:127 | every literal occurrence of the zone suffix is also a regular-expression match |
| AzureTasksDnsName.ResolversAgreeOnZoneSuffix | upup/pkg/fi/cloudup/azuretasks/dnsname.go:127 | on `r + "." + zone` with no earlier match, the task's literal removal and the provider's resolver both give `r` |
| AzureTasksDnsName.LiteralKeepsTrailingLabel | upup/pkg/fi/cloudup/azuretasks/dnsname.go:127 | the literal removal turns `www.example.com.extra` into `www.extra` |
| AzureTasksDnsName.PatternSwallowsTrailingLabel | dnsprovider/pkg/dnsprovider/providers/azure/armdns/dns.go:69-71 | the provider turns `www.example.com.extra` into `www` |
| AzureTasksDnsName.ExampleTrailingLabel | upup/pkg/fi/cloudup/azuretasks/dnsname.go:127 | the two resolvers disagree on text after the zone |
| AzureModelContext.ModelBuilderContext.constructor | pkg/model/azuremodel/network.go:34 | a builder context starts with no tasks |
| AzureModelContext.ModelBuilderContext.AddTask | pkg/model/azuremodel/network.go:44 | appends one task and keeps the earlier ones |
| AzureModelNetwork.Build | pkg/model/azuremodel/network.go:34-76 | appends exactly the network specification's tasks and never fails |
| AzureModelNetwork.NetworkTaskCount | pkg/model/azuremodel/network.go:34-76 | one network, one task per subnet, and one route table iff owned |
| AzureModelNetwork.NetworkFirst | pkg/model/azuremodel/network.go:35-44 | the virtual network comes first, with the cluster's CIDR, shared iff the VPC is |
| AzureModelNetwork.SubnetsFollowSpecs | pkg/model/azuremodel/network.go:46-58 | then one subnet per specification, in order, with its CIDR, shared iff it names a provider ID, attached to the route table and master security group |
| AzureModelNetwork.SubnetAt | pkg/model/azuremodel/network.go:46-58 | task `1 + i` is subnet `i`'s |
| AzureModelNetwork.RouteTableLast | pkg/model/azuremodel/network.go:62-73 | the last task is a route table iff the cluster owns it, and then it is not shared |
| AzureModelNetwork.NetworkTasksLinked | pkg/model/azuremodel/network.go:34-76 | every task carries the builder's lifecycle and resource-group link |
| AzureModelDns.Build | pkg/model/azuremodel/dns.go:37-61 | appends exactly the DNS specification's tasks and never fails |
| AzureModelDns.DnsTasksSpec | pkg/model/azuremodel/dns.go:37-61 | no task without a load-balanced API; otherwise one zone task named after the load balancer, private iff the topology is, shared iff a zone is named, untagged |
| AzureModelDns.ZoneTaskRenderable | pkg/model/azuremodel/dns.go:47-59 | the zone task has the name, group and private flag its render dereferences |
| AzureModelFirewall.AsgTasks | pkg/model/azuremodel/firewall.go:87-92 | the groups' tasks, in order |
| AzureModelFirewall.GetSecurityRules | pkg/model/azuremodel/firewall.go:82-167 | the method builds the master rules specification |
| AzureModelFirewall.SecurityRulesOrder | pkg/model/azuremodel/firewall.go:82-167 | master-to-master, ssh, public API iff public, master-to-node and node-to-node, with priorities 100, 400, 500, 200 and 300 |
| AzureModelFirewall.PublicApiRuleIffPublic | pkg/model/azuremodel/firewall.go:112-115 | the public API rule is present iff the API load balancer is public |
| AzureModelFirewall.RulePrioritiesDistinct | pkg/model/azuremodel/firewall.go:28-34 | no two rules share a priority |
| AzureModelFirewall.RulesAllowIngress | pkg/model/azuremodel/firewall.go:82-167 | every rule allows ingress traffic |
| AzureModelFirewall.RuleEndpoints | pkg/model/azuremodel/firewall.go:82-222 | each rule's source and destination groups, CIDRs, protocol and port |
| AzureModelFirewall.OverrideGroups | pkg/model/azuremodel/firewall.go:296-312 | one override group per name, in order |
| AzureModelFirewall.OverrideGroupsAppend | pkg/model/azuremodel/firewall.go:308-312 | appending a name appends its group |
| AzureModelFirewall.ScanGroup | pkg/model/azuremodel/firewall.go:279-312 | one iteration of the override loop |
| AzureModelFirewall.ScanOverrides | pkg/model/azuremodel/firewall.go:274-313 | the override loop yields the groups of the distinct overrides and whether every group of the role overrides |
| AzureModelFirewall.GetSecurityGroups | pkg/model/azuremodel/firewall.go:224-328 | the method builds the security groups specification, including the unsupported-role error |
| AzureModelFirewall.IndexOf | pkg/model/azuremodel/firewall.go:290-294 | the first index of a name |
| AzureModelFirewall.IndexOfPrefix | pkg/model/azuremodel/firewall.go:290-294 | appending keeps earlier first indices |
| AzureModelFirewall.DedupElements | pkg/model/azuremodel/firewall.go:290-294 | deduplication keeps exactly the values present |
| AzureModelFirewall.DedupDistinct | pkg/model/azuremodel/firewall.go:290-294 | deduplication leaves no value twice |
| AzureModelFirewall.DedupFirstOccurrenceOrder | pkg/model/azuremodel/firewall.go:290-294 | deduplicated values keep their first-occurrence order |
| AzureModelFirewall.RoleOverridesElements | pkg/model/azuremodel/firewall.go:278-288 | an override is collected iff an instance group of the role sets it |
| AzureModelFirewall.OverrideNamesSpec | pkg/model/azuremodel/firewall.go:278-313 | one name per distinct override of the role, none twice, in first-occurrence order |
| AzureModelFirewall.UnsupportedRoleFails | pkg/model/azuremodel/firewall.go:229-269 | an error iff the role is not master, node or bastion |
| AzureModelFirewall.SecurityGroupsLayout | pkg/model/azuremodel/firewall.go:224-328 | override groups named `<override>-<role>`, shared and with ID and suffix from the override; the default group last iff some group has no override; one application security group |
| AzureModelFirewall.NoInstanceGroupsNoGroups | pkg/model/azuremodel/firewall.go:277-321 | a role without instance groups gets no network security group |
| AzureModelFirewall.NoRoleNoOverrides | pkg/model/azuremodel/firewall.go:278-281 | a role without instance groups has no override |
| AzureModelFirewall.LinkAsgs | pkg/model/azuremodel/firewall.go:67-80 | each group linked with lifecycle and resource group, in order |
| AzureModelFirewall.LinkNsgs | pkg/model/azuremodel/firewall.go:169-189 | each group linked and given the rules, in order |
| AzureModelFirewall.AsgTaskList | pkg/model/azuremodel/firewall.go:67-80 | one task per group, in order |
| AzureModelFirewall.NsgTaskList | pkg/model/azuremodel/firewall.go:169-189 | one task per group, in order |
| AzureModelFirewall.AddAsgGroups | pkg/model/azuremodel/firewall.go:73-77 | adds the linked application security group tasks in order |
| AzureModelFirewall.BuildNodeRules | pkg/model/azuremodel/firewall.go:67-80 | adds the node groups' tasks and returns them |
| AzureModelFirewall.AddNsgGroups | pkg/model/azuremodel/firewall.go:181-186 | adds each master network security group, linked and carrying the rules |
| AzureModelFirewall.BuildMasterRules | pkg/model/azuremodel/firewall.go:169-189 | adds the master application security groups, then the network security groups with the rules; no error |
| AzureModelFirewall.Build | pkg/model/azuremodel/firewall.go:56-65 | appends exactly the firewall specification's tasks and never fails |
| AzureModelFirewall.FirewallTasksLayout | pkg/model/azuremodel/firewall.go:56-189 | the node group, then the master group, then one task per master network security group with the rules between them |

## Left out

- Logging does not change any result, so it is left out. The credentials and
  environment lookup that build the clients become a `Config` value.
- The Azure SDK clients are not modelled. Writes go to the abstract
  `Backend<C>`. Listing responses (pager pages, private list results) are
  parameters.
- The private-zone and private-record-set lists are one response each. The
  source reads only the values of the first page that `ListByResourceGroup`
  and `List` return, and never advances to later pages, so a private zone or
  record set on a later page is not seen. The model follows the source here.
- Context cancellation and concurrency are not modelled.
- The model context's naming and sharing helpers are taken as given fields of
  `ModelContext`. Examples are security group names, cloud tags, the sharing
  of VPC and route table, and whether a load balancer serves the API.
- The role, load-balancer-type and DNS-type constants come from the kops API
  package, which is not part of this model. Their string values are chosen
  here.
- AzureModelContext.ModelBuilderContext.AddTask: does not model the duplicate
  task name check of the real builder context, which is not part of this
  model.
- AzureModelFirewall.BuildMasterRules: the error branches after
  `GetSecurityGroups` are not modelled. They cannot be reached for the
  supported roles that the builders pass.
- AzureModelFirewall.BuildNodeRules: same as above. The error branch cannot
  be reached for the node role.
- TagsForRun: the merge of cluster tags is an abstract function. That
  function comes from the cloud, which is not part of this model.
- Nil-pointer dereferences that the source assumes away are preconditions.
  They cover:
  - the resource group name and the desired name before a render;
  - the zone's name and the client routed to its type, when record sets are
    listed or looked up (`Collect`, `List`, `Get`, `GetByName`) and when a
    non-empty changeset is applied;
  - the selected A-record list of a record set and each address in it, when
    `Rrdatas` reads them: a private record set whose list pointer is nil, or
    a public one without properties, has no readable list;
  - the provider ID of a zone, which `Zone.ID` dereferences;
  - the `Private` flag of a DNS zone;
  - `Egress`, `Protocol` and `AccessType` of a rule.
- Zone names are restricted to letters, digits, `-`, `_` and `.` wherever
  the pattern `.<zone>.*` is built (`Routable`, so a non-empty `Apply`, and
  the relative-name lemmas). Other names are outside the model: some make
  `regexp.MustCompile` panic (a `(`), others compile to a pattern with a
  different meaning (a `+`).
- AzureDnsChangeset.ResourceRecordChangeset.Apply: for a non-empty changeset, requires
  `Ready()`: every queued entry readable (names; for writes also TTL and
  addresses) before any call is sent. The source dereferences an entry only
  when its call is reached, so a run whose earlier call fails returns that
  error even if a later entry would panic; the model does not cover such a
  changeset.
- AzureModelDns.Build: the source assigns `fi.String(...)`, a `*string`, to
  the `VirtualNetworkName` field that the DNS zone task declares as a plain
  `string`, so it does not type-check as written. The model reads this as
  the value of the virtual network's name.
- AzureTaskCommon.FindFirst: requires every listed entry to have a name. The
  source dereferences every listed name it passes over.
- The name and the rrdatas of a changeset entry are read through the
  dnsprovider interface. Only this provider's record sets are modelled.
- ApplicationSecurityGroupID.String and VirtualNetworkId.String carry no
  contract of their own. Their format and injectivity are proved as lemmas.
- `securitygrouprule.go`, the `azure` cloud package and `interface.go` are
  context and are not part of this model. Only their shapes are used.
- PayloadCarriesRecordSet: states the payload for per-iteration `range`
  variables (Go 1.22 on). Built with an older Go, every A record that
  `createOrUpdateAzureRecordSet` and `New` send points at one shared `rrdata`
  and carries the last address; `SharedVariablePayloadOf` and
  `SharedVariableARecords` model that case, and the Findings table lists it.
- The DNS record-set task aims its target at the bare load-balancer name,
  as written.

## Findings

| source | as written | input that shows it | evidently intended | confidence | as-written member | corrected member |
|---|---|---|---|---|---|---|
| dnsprovider/pkg/dnsprovider/providers/azure/armdns/rrsets.go:72-81 | `v.Name == &name` (here and in the private branch) compares the listed name's pointer with the address of the argument | any listing, e.g. a record set named `www` when getting `www` | compare the names' values | certain (pointer identity never holds), not executed | AzureDnsRrsets.GetNeverFinds | AzureDnsRrsets.GetByNameSelectsNamed |
| upup/pkg/fi/cloudup/azuretasks/dnszone.go:132-150 | the zone type is stored through the properties' nil `ZoneType` pointer | any zone, public or private | allocate the zone type and set it private iff the task is private | high, not executed | AzureTasksDnsZone.PropertiesAsWritten | AzureTasksDnsZone.PropertiesSelectZoneType |
| dnsprovider/pkg/dnsprovider/providers/azure/armdns/rrsets.go:124-128 | each A record takes `&rrdata`, the address of the loop variable | rrdatas `["198.51.100.7", "198.51.100.8"]` | one A record per address | only under one shared loop variable (Go before 1.22), not executed | AzureDnsRrsets.SharedVariableLosesAddresses | AzureDnsRrsets.NewRoundTrip |
| dnsprovider/pkg/dnsprovider/providers/azure/armdns/rrchangeset.go:109-115 | each public A record sent takes `&rrdata`, the address of the loop variable | a public record set with addresses `198.51.100.7` and `198.51.100.8` | one A record per address | only under one shared loop variable (Go before 1.22), not executed | AzureDnsChangeset.SharedVariablePayloadLosesAddress | AzureDnsChangeset.PayloadCarriesRecordSet |
| dnsprovider/pkg/dnsprovider/providers/azure/armdns/rrchangeset.go:137-143 | each private A record sent takes `&rrdata`, the address of the loop variable | a private record set with two different addresses | one A record per address | only under one shared loop variable (Go before 1.22), not executed | AzureDnsChangeset.SharedVariablePayloadRightIff | AzureDnsChangeset.PayloadCarriesRecordSet |
