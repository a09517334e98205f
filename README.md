# Lambda DDNS handler, modelled in Dafny

This project models `union.py`, an AWS Lambda function that keeps Route 53 in step with EC2 instances and
Elastic Load Balancers (classic and v2).

`lambda_handler` does the following:

- It receives a CloudWatch event, either an EC2 state change or an ELB API call.
- On a create it describes the asset and stores a pruned snapshot of it in a DynamoDB table. On a destroy
  it reads that snapshot back.
- It reads the asset's addresses and DNS names, and derives the reverse lookup zone from the subnet mask.
- It lists the hosted zones and splits them into the private and the public collection.
- It associates the VPC with an existing reverse lookup zone, or creates that zone.
- It walks the asset's tags:
  - a `ZONE` tag writes an A record into the matching private zone and a PTR record into the reverse
    lookup zone, or else an A record into the matching public zone;
  - a `CNAME` tag writes CNAME records into the private zone named by the value's suffix and into every
    public zone the value ends with.
- It does the same A/PTR work for the domain names of the VPC's DHCP option set.
- On a destroy it finally deletes the snapshot.

Every write on create is an UPSERT, and the same write on destroy is a DELETE.

## Modules

- **Wrappers, Strings**: the Python exceptions as a `Res` value, plus `str.split`, `join`, `find`,
  `lstrip`, `lower`, `upper` and `reverse` over `seq<char>`.
- **Hostname**: `is_valid_hostname`.
- **ReverseZone**: `reverse_list`, with an in-place array reversal as `list.reverse()`;
  `get_reversed_domain_prefix`; and the reverse lookup zone name.
- **Json, Assets**: `remove_empty_from_dict` on JSON values, and the asset document it prunes.
- **Events**: the event kinds, `set_instance_vars`, `set_lbv1_vars`, `set_lbv2_vars`, `db_put_asset`
  and `db_fetch_asset`. They work on the snapshot table as a map.
- **Records**: the change batches of `create_resource_record` and `delete_resource_record`, and the
  host/suffix string work on DNS names and CNAME values.
- **Zones**: the zone listing, the two collections, the `next(...)` lookups and `get_zone_id`.
- **Provider**: Route 53 as a pure `DnsState`, with one function per API call. The class `DnsProvider`
  changes that state in place.
- **Execution**: what the handler does to Route 53 and the table, as a list of `Step`s:
  - a `try:` block of writes, in which a raise ends the block and is swallowed;
  - an association check;
  - the creation of the reverse zone;
  - the snapshot deletion;
  - an uncaught raise or `sys.exit()` that ends the run.
- **Planner**: every decision `lambda_handler` makes, as the steps it issues. The decisions depend only on
  the zone listing taken at line 102.
- **Handler**: `Run`, the whole invocation as a function, and the class `Lambda`. `Lambda` holds the
  handler's globals, the table and the Route 53 client, and does the work loop by loop in place. Its
  methods are proved equal to `Run` and `Execute`.

## Model

| member | source | states |
|---|---|---|
| Hostname.IsValidHostname | union.py:495-502 | IndexError exactly on the empty string; True exactly when the name is present, at most 255 characters, and is an LDH name once one trailing dot is dropped |
| Hostname.LabelsMatchIffLdhName | union.py:501-502 | every dot-separated label matching `(?!-)[A-Z\d-]{1,63}(?<!-)` is equivalent to the positional LDH-name rule, in both directions |
| Hostname.ExampleWeb | union.py:495-502 | "web-01" is valid |
| Hostname.ExampleCorp | union.py:499-502 | "corp.internal." is valid; the trailing dot is dropped first |
| Hostname.ExamplesRejected | union.py:497-502 | "-bad", "a..b" and a missing value are invalid; "" raises IndexError |
| Hostname.ExampleLongLabel | union.py:501-502 | a 64-character label is invalid |
| ReverseZone.ReversedLabels | union.py:513-525 | exits (SystemExit) exactly when no digit is directly followed by a dot |
| ReverseZone.ReversedPieces | union.py:516-522 | on success the result's labels are the input's non-empty labels reversed, each followed by a dot |
| ReverseZone.ReverseInPlace | union.py:518 | the array afterwards holds its old contents reversed |
| ReverseZone.ReverseList | union.py:513-525 | the loop that splits, filters, reverses and re-joins computes ReversedLabels |
| ReverseZone.ReverseListTwice | union.py:64-66 | reversing a reversed result gives back the original non-empty labels, dot-terminated |
| ReverseZone.OctetCount | union.py:529-537 | a mask keeps between one and three octets |
| ReverseZone.GetReversedDomainPrefix | union.py:527-537 | the prefix is a dot-terminated prefix of the address |
| ReverseZone.PrefixPieces | union.py:527-537 | the prefix's labels are the first 3, 2 or 1 octets by mask range, then the empty label |
| ReverseZone.ReversedAddress | union.py:64 | a dotted quad reverses to its four octets in reverse order |
| ReverseZone.PrefixReverses | union.py:65-66 | reversing the prefix gives the kept octets in reverse order |
| ReverseZone.ReverseLookupZone | union.py:64-69 | the zone is the kept octets reversed, followed by "in-addr.arpa." |
| ReverseZone.ExamplePrefix24 | union.py:529-531 | mask 24 keeps "10.0.1." of 10.0.1.55 |
| ReverseZone.ExamplePrefix16 | union.py:532-534 | mask 16 keeps "10.0." |
| ReverseZone.ExamplePrefix8 | union.py:535-537 | mask 8 keeps "10." |
| ReverseZone.ExampleReversedAddress | union.py:64 | 10.0.1.55 reverses to "55.1.0.10." |
| ReverseZone.ExampleZone24 | union.py:59-69 | a /24 instance at 10.0.1.55 gets the zone "1.0.10.in-addr.arpa." |
| Json.Keep | union.py:566 | the list filter keeps only truthy pruned items, in order, no more than there were, and every item that is truthy before and after pruning |
| Json.KeepAppend | union.py:566 | filtering a concatenation is the concatenation of the filtered parts |
| Json.RemoveEmpty | union.py:561-568 | the result holds no falsy value at any depth; scalars are unchanged; no dictionary key is added; no list grows |
| Json.KeptEntries | union.py:563-564 | a key survives exactly when its value and its pruned value are both truthy, and it then holds the pruned value |
| Json.ScalarEntries | union.py:564 | a scalar entry is kept unchanged when truthy and dropped otherwise |
| Json.CleanFixpoint | union.py:561-568 | a value with nothing empty left is unchanged by pruning |
| Json.Idempotent | union.py:561-568 | pruning twice is pruning once |
| Assets.PruneOpt | union.py:564 | a string field survives exactly when it is present and non-empty |
| Assets.RemoveEmptyStrDict | union.py:564 | pruning a dictionary of strings drops exactly its missing and empty fields |
| Assets.ExtrasPrune | union.py:564 | pruning the `extras` dictionary is pruning each of its fields |
| Assets.TagPrune | union.py:564-566 | a tag is pruned field by field, and it is dropped exactly when neither field is left |
| Assets.PruneTags | union.py:566 | every tag kept has a field left |
| Assets.KeepTags | union.py:566 | the generic list filter applied to the tag list is the tag-level prune |
| Assets.PruneAsset | union.py:396 | pruning keeps the asset kind and never adds tags |
| Assets.RemoveEmptyRoot | union.py:563-564 | the top-level document keeps `extras`, and keeps `tags` only when some tag is left |
| Assets.PruneAssetIsRemoveEmpty | union.py:396 | `remove_empty_from_dict` of the asset document is the document of the typed prune |
| Assets.PruneAssetIdempotent | union.py:396 | storing a snapshot of a snapshot changes nothing |
| Assets.PruneTagsFixed | union.py:566 | the tag prune leaves a list as it is exactly when every tag is clean |
| Assets.PruneAssetFixed | union.py:396 | storing leaves an asset as it is exactly when no field holds "" and every tag has a field |
| Assets.PruneTagsIdempotent | union.py:566 | pruning the tag list twice is pruning it once |
| Events.PutAsset | union.py:393-406 | the pruned asset is stored under its id; afterwards KeyError exactly when the region was missing or pruned away; otherwise a create of this asset |
| Events.FetchAsset | union.py:408-427 | KeyError exactly when no snapshot exists or it has no region; otherwise a destroy of the stored asset |
| Events.PutThenFetch | union.py:393-427 | a stored snapshot reads back as the pruned asset |
| Events.PutThenFetchUnpruned | union.py:393-427 | an asset with nothing to prune reads back exactly as it was stored |
| Events.SetInstanceVars | union.py:294-326 | a non-running state is the snapshot fetch under the instance id; a running state for an unknown instance raises ClientError; a running known instance raises KeyError exactly when its private address, private DNS name, subnet or VPC is missing (table untouched) or the region is ""; a success stores the pruned asset as a create |
| Events.InstanceCreateFields | union.py:305-321 | a running instance with all required fields loads with the description's tags (or none), the event's region, and its addresses, DNS names, subnet and VPC; no public name without a public address |
| Events.LbCreate | union.py:336-355 | KeyError exactly when the scheme, DNS name or VPC is missing (table untouched) or the region is ""; on success the asset id, create state, the description's tags (or none), VPC, scheme, version and region, the stored pruned snapshot, and an internal scheme setting only the private DNS name, any other only the public one |
| Events.LbExtras | union.py:336-355 | a load balancer's extras: kind elb, the version and region, its scheme and VPC, no addresses or subnet, and the DNS name in the private slot exactly for an internal scheme |
| Events.SetLbV1Vars | union.py:328-358 | KeyError without a load balancer name; a destroy is the snapshot fetch under that name; a create of an unknown name raises ClientError, of a known one is LbCreate of its description |
| Events.SetLbV2Vars | union.py:360-391 | a create without a response ARN, or a destroy without a request ARN, raises KeyError; a destroy is the snapshot fetch under the request ARN; a create of an unknown ARN raises ClientError, of a known one is LbCreate of its description |
| Events.Load | union.py:40-49 | exactly the events of other sources are not handled |
| Events.Classify | union.py:40-49 | the source alone decides whether the event is handled |
| Events.LoadAgreesWithClassify | union.py:40-46 | on an event naming its load balancer one way only, a successful load has the asset id and state the event names |
| Events.LoadDisagreesWithClassify | union.py:40-46 | a DeleteLoadBalancer event with a classic name and an ARN, with a snapshot under the ARN only, loads under the ARN while the event names the classic load balancer |
| Events.V2EventSkipsV1 | union.py:43-46 | an event without a classic name is read by the v2 reader |
| Events.DestroyLeavesTable | union.py:323-326 | a destroy event leaves the table as it was while loading |
| Records.DotTerminated | union.py:432-433 | the name ends in a dot, extends the input, and grows by at most one |
| Records.RecordName | union.py:432-442 | IndexError exactly on an empty host; otherwise the host, one dot when missing, then the zone name |
| Records.RecordNameCases | union.py:432-442 | the two cases of the trailing-dot test, written out |
| Records.Change | union.py:429-455 | the batch carries the action, the comment, the type, TTL 60 and the single value, under the record name |
| Records.ExampleRecordNames | union.py:152-153 | host "host" in "corp.internal." is "host.corp.internal."; "55.1.0.10." in "in-addr.arpa" is "55.1.0.10.in-addr.arpa" |
| Records.CreateDeleteSameRecord | union.py:429-481 | delete fails exactly when create fails, and otherwise sends the same record set with the action DELETE |
| Records.HostOf | union.py:82 | the host label is a dot-free prefix of the name |
| Records.HostOfIsFirstPiece | union.py:82 | the host label is `split('.')[0]` |
| Records.HostOfLabel | union.py:82 | the host label of "h.rest" is h |
| Records.CnameSplit | union.py:187-191 | the host is the first label; the suffix is non-empty and dot-terminated; when it cannot be, IndexError |
| Records.CnameSplitDotted | union.py:188-191 | "h.rest" splits into h and rest, dot-terminated |
| Records.CnameSplitEmptySuffix | union.py:189-190 | "h." has an empty suffix and raises IndexError |
| Records.CnameSplitNoDot | union.py:189-191 | a value without a dot is its own suffix, with a dot appended |
| Zones.ZoneIdOf | union.py:104 | IndexError exactly when the id has fewer than three '/'-separated parts |
| Zones.ZoneIdOfListed | union.py:104 | "/hostedzone/" + id gives id back |
| Zones.ZoneIdOfNoSlash | union.py:104 | an extracted id holds no '/' |
| Zones.Filter | union.py:103 | the zones of one privacy setting, exactly, in listing order |
| Zones.FilterAppend | union.py:103 | filtering a concatenated listing is the concatenation of the filtered parts |
| Zones.FilterPartition | union.py:103-105 | each zone lands in exactly one of the two collections |
| Zones.Entries | union.py:104 | one entry per zone, or IndexError |
| Zones.EntriesSpec | union.py:104 | the map succeeds exactly when every id parses, and each entry is its zone's name and short id |
| Zones.Collection | union.py:101-106 | a collection has one entry per zone of its privacy setting |
| Zones.FirstKeyed | union.py:136 | a found entry is in the collection and matches the key |
| Zones.FirstKeyedSpec | union.py:136 | nothing is found exactly when nothing matches; otherwise the first match is found |
| Zones.FirstKeyedAt | union.py:136 | the first matching entry is the one returned |
| Zones.SuffixZones | union.py:207-208 | exactly the entries whose name ends the value |
| Zones.FirstNamed | union.py:487 | a zone with exactly this name from the listing, and None exactly when there is none |
| Zones.FirstNamedIsFirst | union.py:487 | the zone found sits at an index with no zone of that name before it |
| Zones.GetZoneId | union.py:482-493 | IndexError exactly on ""; otherwise an id exactly when the first zone named with the dot-terminated name has a well-formed id, and then it is that id |
| Zones.GetZoneIdMissing | union.py:484-493 | an unlisted name gives None |
| Zones.GetZoneIdOfNew | union.py:126-127 | the id of a zone just created is read back |
| Provider.ApplyChange | union.py:434-454 | ClientError exactly for an unknown zone, an upsert of a refused record set, or a delete of a record that is not there; an upsert sets the record and a delete removes it; zones and refusals unchanged |
| Provider.DeleteUndoesUpsert | union.py:429-481 | a delete after an upsert succeeds and leaves the records without that record set |
| Provider.UpsertIdempotent | union.py:429-456 | sending the same upsert twice leaves Route 53 as one send does |
| Provider.UpsertDeleteRoundTrip | union.py:429-481 | a delete after an upsert of a new record restores the state |
| Provider.ZoneVpcs | union.py:595-598 | ClientError for an unknown zone, KeyError for a public one, otherwise its VPC list |
| Provider.Associate | union.py:570-579 | ClientError exactly when the zone has no VPC list, already holds the VPC, or refuses it; otherwise the VPC is appended and nothing else changes |
| Provider.CreateZone | union.py:539-552 | ClientError exactly for a name the service refuses; otherwise the new private zone is appended after every existing one and the records and refusals are unchanged |
| Provider.CreatedZoneVpcs | union.py:107-109 | a zone the service creates is associated with exactly its VPC |
| Provider.DnsProvider.constructor | union.py:11 | the client starts in the given state |
| Provider.DnsProvider.ListHostedZones | union.py:102 | the zones as listed |
| Provider.DnsProvider.GetHostedZoneVpcs | union.py:595-598 | the VPCs of the zone, or the error |
| Provider.DnsProvider.ChangeResourceRecordSets | union.py:434-454 | the state moves as ApplyChange says, or stays and the error is returned |
| Provider.DnsProvider.AssociateVpcWithHostedZone | union.py:572-579 | the state moves as Associate says, or stays and ClientError is returned |
| Provider.DnsProvider.CreateHostedZone | union.py:539-552 | the state moves as CreateZone, or stays with ClientError |
| Execution.Prepare | union.py:429-435 | fails exactly when an argument is unbound (NameError), the host is empty (IndexError) or the zone id is None; otherwise the batch carries the write's action, type and value |
| Execution.ApplyWrite | union.py:429-481 | a write never changes the zones or the refusals |
| Execution.UpsertWrite | union.py:429-455 | an upsert into a listed zone succeeds exactly when its record set is not refused, then sets exactly that record set; a refused one leaves the block's state unchanged |
| Execution.UpsertPair | union.py:151-153 | the two upserts of a block, neither refused, set both record sets, in order |
| Execution.RunGroup | union.py:151-155 | a `try:` block changes only records |
| Execution.RunGroupCons | union.py:151-155 | a failing write ends its block with nothing further written; a succeeding one continues with the rest |
| Execution.RunGroupUpserts | union.py:151-155 | a block of upserts adds, over the records already there, one record set per write up to the first that fails (bad arguments, unknown zone or refused record set), later writes winning |
| Execution.RunGroupIdempotent | union.py:151-155 | running a block of upserts a second time changes nothing |
| Execution.RunProperties | union.py:140-150 | ClientError for a None zone id and the lookup's error for an unknown or public zone; a held VPC or NoAssociate changes nothing; a missing VPC becomes associated as Associate says; a refusal is ignored or exits; unless refused, a run that does not halt leaves the VPC associated |
| Execution.ExecStep | union.py:108-269 | an uncaught raise halts with that exception; a write block never halts and touches only records; a reverse zone creation halts with ClientError exactly when refused, changing nothing; only the snapshot deletion touches the table, and it removes exactly that key |
| Execution.Execute | union.py:108-264 | the steps in order until one halts; with ExecuteAppend, ExecuteHalted and ExecuteContinues, a halt ends the handler and anything after it never runs |
| Execution.ExecuteAppend | union.py:133-269 | running two step lists is running the first and, unless it halted, the second |
| Execution.ExecuteHalted | union.py:150 | once a run halts, later steps do nothing |
| Execution.ExecuteContinues | union.py:133-269 | a run that did not halt goes on from the world it reached |
| Execution.ExecuteKeepsTable | union.py:133-261 | steps without a snapshot deletion leave the table unchanged |
| Execution.ExecuteWritesOnly | union.py:151-155 | write blocks alone never halt and leave the table and the zones unchanged |
| Planner.DnsName | union.py:80-89 | a missing name stays unbound with host ""; otherwise the name and its host label |
| Planner.Common | union.py:74-89 | KeyError exactly when the asset has no VPC id |
| Planner.ReadAsset | union.py:51-89 | raises exactly when the VPC id is missing or an instance's address, subnet or reverse name cannot be read (KeyError, ClientError, SystemExit, AttributeError in source order); the VPC id and DNS names are the asset's; an instance binds its addresses, the reversed address and the reverse zone derived from its subnet's mask; a load balancer binds no address and no reverse zone |
| Planner.RefusedReverseZoneEndsRun | union.py:122-127 | a refused reverse zone creation ends the run with ClientError before the tag loop, changing nothing |
| Planner.ReverseListedAssociates | union.py:110-121 | a listed reverse zone looks its id up and associates the VPC if missing; a refusal is ignored, so it never exits, and otherwise the VPC ends up associated |
| Planner.ReadAssetState | union.py:51-89 | a destroy reads the same locals as a create of the same asset, with the state flipped, and raises as the create does |
| Planner.LoadBalancerContext | union.py:71-72 | a load balancer with a VPC id always reads, with no addresses and reverse zone "" |
| Planner.ReverseSteps | union.py:110-127 | a listed zone gives the association check of its id with refusals ignored, or IndexError for the name ""; an unlisted name on an instance create gives the creation of that zone; at most one step, and none exactly when no zone is listed and none is created |
| Planner.ReverseZoneCreated | union.py:124-127 | an unlisted reverse zone is created on create, and its new id is the id used afterwards |
| Planner.ActionFor | union.py:141-177 | UPSERT exactly on create |
| Planner.AssocFor | union.py:141-150 | tag zones associate or exit on create and never associate on destroy |
| Planner.PrivateSteps | union.py:140-161 | the zone check, then one block: the A record in the zone, then the PTR record in the reverse zone |
| Planner.PublicCnames | union.py:207-220 | one CNAME block per public zone given, each pointing at the public DNS name |
| Planner.PrivateCname | union.py:192-205 | one CNAME block exactly when a private zone has the suffix as its name, pointing at the private DNS name |
| Planner.Cleanup | union.py:263-269 | nothing on create; the deletion of the asset's snapshot on destroy |
| Planner.PlanParts | union.py:101-269 | a plan is the reverse zone step, the tag loop, the DHCP part and the cleanup, in that order |
| Planner.DhcpPart | union.py:223-228 | `sys.exit()` when the VPC has no option set, else the DHCP loop (ConfigFirstValueOnly, ConfigWithoutValues, EmptyOptionKeepsSnapshot) |
| Planner.Plan | union.py:101-269 | a listing with an unparsable zone id halts with IndexError; otherwise the reverse step, tag loop, DHCP part and cleanup in order (PlanParts), whose destroy deletes what the create writes (AllTagStepsMirror, DhcpStepsMirror) |
| Planner.ValidatedValue | union.py:134-135 | a valid value runs the rule; an invalid or missing value does nothing; "" halts with IndexError |
| Planner.CnameTagSteps | union.py:185-220 | IndexError on "", nothing for an invalid or missing value, else the CNAME rule (ValidatedValue) |
| Planner.ZoneTagSteps | union.py:134-181 | IndexError on "", nothing for an invalid or missing value, else the ZONE rule (ValidatedValue) |
| Planner.ZoneRulePrefersPrivate | union.py:136-161 | a matching private zone wins whenever the private host is known |
| Planner.ZoneRuleFallsBackToPublic | union.py:137-177 | without a usable private match, the first matching public zone gets one A record for the public host |
| Planner.ZoneRuleNoMatch | union.py:178-179 | no matching zone gives no steps |
| Planner.PublicStep | union.py:163-177 | one block with one A record for the public host and address in the public zone (ZoneRuleFallsBackToPublic) |
| Planner.ZoneRule | union.py:136-178 | a private match with a private host wins (ZoneRulePrefersPrivate), else a public match with a public host (ZoneRuleFallsBackToPublic), else nothing (ZoneRuleNoMatch) |
| Planner.CnameRuleShape | union.py:185-220 | one private block when the suffix names a private zone, then one public block per public zone the value ends with |
| Planner.CnameRulePrivatePart | union.py:192-205 | the private block, if any, comes first |
| Planner.CnameRulePublicPart | union.py:207-220 | all blocks after it are public CNAME writes into zones the value ends with |
| Planner.CnameRuleUnfold | union.py:187-220 | a value that splits runs the private part, then the public loop |
| Planner.CnameRuleRaises | union.py:189-190 | a value with an empty suffix halts with IndexError |
| Planner.CnameRule | union.py:186-220 | IndexError on an empty suffix (CnameRuleRaises), else the optional private block then one public block per suffix zone (CnameRuleShape, CnameRuleUnfold) |
| Planner.TagRunsBothRules | union.py:134-185 | a key naming both ZONE and CNAME runs both rules, ZONE first |
| Planner.TagIgnored | union.py:183-185 | a key naming neither does nothing |
| Planner.TagLoopStep | union.py:133 | the tag loop is one tag followed by the rest |
| Planner.ZoneKey | union.py:134 | the key "ZONE" names ZONE and does not name CNAME |
| Planner.KeyNames | union.py:134 | the key, left-stripped and upper-cased, contains the word (ZoneKey: "ZONE" names ZONE and not CNAME) |
| Planner.TagSteps | union.py:134-220 | AttributeError without a key; the ZONE rule then the CNAME rule for a key naming both (TagRunsBothRules), nothing for a key naming neither (TagIgnored) |
| Planner.AllTagSteps | union.py:133-220 | the tag loop, one tag after another (TagLoopStep), mirrored between create and destroy (AllTagStepsMirror) and never deleting the snapshot (AllTagStepsNoSnapshot) |
| Planner.ConfigFirstValueOnly | union.py:233-253 | only the first value of an option counts, and it runs the private A/PTR steps of the zone it names |
| Planner.ConfigWithoutValues | union.py:233-261 | an option with no values raises IndexError whether or not there is a private zone: in the lookup at line 233, or in the message at line 261 |
| Planner.DhcpStepsSplit | union.py:232-261 | the DHCP loop over two lists of options is the loop over the first, then the loop over the second |
| Planner.EmptyOptionKeepsSnapshot | union.py:232-269 | an option without values halts the run before the cleanup, so a destroy keeps the snapshot in the table |
| Planner.ConfigLoopStep | union.py:232 | the DHCP loop is one option followed by the rest |
| Planner.DhcpSteps | union.py:232-261 | the DHCP loop, one option after another (ConfigLoopStep), mirrored between create and destroy (DhcpStepsMirror) |
| Planner.ConfigSteps | union.py:232-261 | only the first value is compared and runs the private A/PTR steps; no values raise IndexError (ConfigFirstValueOnly, ConfigWithoutValues) |
| Planner.PrivateStepsMirror | union.py:141-161 | destroy issues the same private writes as create, as deletes and without association |
| Planner.TagStepsMirror | union.py:133-220 | a tag on destroy mirrors the same tag on create |
| Planner.ValueMirror | union.py:134-220 | both rules on destroy mirror themselves on create |
| Planner.ZoneRuleMirror | union.py:136-177 | the ZONE rule on destroy mirrors the rule on create |
| Planner.PrivateCnameMirror | union.py:194-205 | the private CNAME on destroy mirrors the create |
| Planner.PublicCnamesMirror | union.py:207-220 | the public CNAMEs on destroy mirror the create |
| Planner.CnameRuleMirror | union.py:185-220 | the CNAME rule on destroy mirrors the rule on create |
| Planner.CnameRuleRaisesMirror | union.py:189-190 | the raising CNAME value raises alike on both |
| Planner.CnameRuleSplitMirror | union.py:191-220 | a splitting CNAME value mirrors between create and destroy |
| Planner.AllTagStepsMirror | union.py:133-220 | the whole tag loop on destroy deletes what it creates on create |
| Planner.DhcpStepsMirror | union.py:232-261 | the whole DHCP loop on destroy deletes what it creates on create |
| Planner.CnameRuleNoSnapshot | union.py:185-220 | the CNAME rule never deletes the snapshot |
| Planner.ZoneRuleNoSnapshot | union.py:134-181 | the ZONE rule never deletes the snapshot |
| Planner.TagStepsNoSnapshot | union.py:133-220 | no tag deletes the snapshot |
| Planner.AllTagStepsNoSnapshot | union.py:133-220 | the tag loop never deletes the snapshot |
| Planner.EmptyZoneValue | union.py:133-134 | a ZONE tag with value "" raises IndexError on create, but its stored snapshot has no value and the destroy skips it |
| Planner.DhcpStepsNoSnapshot | union.py:232-261 | the DHCP loop never deletes the snapshot |
| Planner.PlanBodyNoSnapshot | union.py:101-261 | everything before the cleanup leaves the snapshot in place |
| Planner.CreateKeepsSnapshots | union.py:263-264 | a create run leaves the table untouched |
| Planner.DestroyEndsWithCleanup | union.py:263-269 | a destroy plan ends with the snapshot deletion, which nothing before it does |
| Planner.DestroyPlanRemovesSnapshot | union.py:263-269 | a destroy run that finishes has removed the snapshot |
| Planner.FailedAddressSkipsPointer | union.py:151-155 | when the A write fails, the PTR write is skipped and nothing changes |
| Planner.LoadBalancerZoneTagWritesNothing | union.py:151-177 | for a load balancer every ZONE write raises NameError and changes nothing |
| Planner.PrivateZoneCreate | union.py:141-153 | on create, a private zone without the VPC is associated, then gets the A record and the reverse zone the PTR record, when neither record set is refused; no halt, table unchanged |
| Planner.PrivateStepsAssociate | union.py:141-150 | the association happens before the write block on create |
| Planner.CorpInternalExample | union.py:141-153 | "host" at 10.0.1.55 in corp.internal. gets A "host.corp.internal." and PTR "55.1.0.10.in-addr.arpa", both with TTL 60 |
| Handler.DhcpNamesDotted | union.py:504-511 | one name per option value, each the value with a dot appended |
| Handler.Run | union.py:19-269 | one invocation: other sources ignored (RunIgnoresOtherSources), a create keeps its stored snapshot (CreateKeepsStoredSnapshot), a finished destroy removes it (DestroyRemovesSnapshot), and the in-place Lambda.Handle equals it |
| Handler.DhcpConfigurations | union.py:223-228 | the VPC's option names, or none when it has no option set, which DhcpPart turns into `sys.exit()` |
| Handler.DhcpNames | union.py:504-511 | one dot-terminated name per option value, option by option (DhcpNamesDotted) |
| Handler.RunIgnoresOtherSources | union.py:47-49 | an event of another source changes nothing and raises nothing |
| Handler.DestroyWithoutSnapshot | union.py:323-326 | a non-running instance without a snapshot raises KeyError and changes nothing |
| Handler.CreateKeepsStoredSnapshot | union.py:263-264 | after a create the table is exactly the one loading left |
| Handler.CreateThenDestroyReadsSame | union.py:51-89 | after a create of an asset with nothing to prune, the destroy fetches the snapshot and reads the create's locals with the state flipped |
| Handler.DestroyRemovesSnapshot | union.py:263-269 | a destroy that finishes leaves no snapshot of the asset |
| Handler.Lambda.constructor | union.py:23-27 | the globals start empty over the given client and table |
| Handler.Lambda.Adopt | union.py:295 | the globals take what a reader produced, and keep their old values when it raised |
| Handler.Lambda.SetInstanceVars | union.py:294-326 | the globals and the table as Events.SetInstanceVars says |
| Handler.Lambda.SetLbV1Vars | union.py:328-358 | the globals and the table as Events.SetLbV1Vars says |
| Handler.Lambda.SetLbV2Vars | union.py:360-391 | the globals and the table as Events.SetLbV2Vars says |
| Handler.Lambda.RunWrite | union.py:152 | one write call: success exactly when ApplyWrite succeeds, and the client state moves accordingly |
| Handler.Lambda.RunWrites | union.py:151-155 | the write loop of a `try:` block reaches RunGroup |
| Handler.Lambda.Perform | union.py:133-269 | one step performed in place is ExecStep |
| Handler.Lambda.Steps | union.py:133-269 | a step list performed in place is Execute |
| Handler.Lambda.Tags | union.py:133-220 | the tag loop in place is Execute of the planned tag steps |
| Handler.Lambda.GetDhcpConfigurations | union.py:504-511 | the nested loop computes DhcpNames |
| Handler.Lambda.Dhcp | union.py:232-261 | the DHCP loop in place is Execute of the planned DHCP steps |
| Handler.Lambda.LoadAsset | union.py:40-49 | loads as Events.Load says, falling back from the classic to the v2 reader |
| Handler.Lambda.Reconcile | union.py:101-269 | everything after reading the asset is Execute of the plan for the listing taken first |
| Handler.Lambda.Handle | union.py:19-269 | one invocation in place is Run |

## Left out

- Boto3 and DynamoDB calls are not executed; they are modelled as follows:
  - Route 53 is the `DnsState` value, plus the `DnsProvider` class.
  - The snapshot table is a map.
  - The describe calls, subnet masks and DHCP option sets are the `Env` input of `Run`.
  - A refused association, such as an overlapping subdomain, is the `refused` set of the state.
  - A refused zone creation is the `refusedZones` set of the state. It raises ClientError outside any
    `try:`, so it ends the run (Execution.ExecStep, Planner.RefusedReverseZoneEndsRun).
  - A refused upsert, such as a CNAME conflict or throttling, is the `refusedRecords` set of the state:
    the record keys the service does not accept. A delete is refused when its record set is not there.
- `time.sleep` and `random.random` are left out; they have no effect on the result.
- The `uuid.uuid1()` caller reference is left out. The id Route 53 gives a new reverse zone is an input,
  `newZoneId`.
- `print` output is left out.
- The `is_dns_hostnames_enabled` / `is_dns_support_enabled` checks are left out. Their results only
  decide what is printed. They call `vpc.describe_attribute` outside any `try:` (lines 92 and 96), so for
  a VPC id EC2 does not know they raise ClientError before any Route 53 call. The model takes every VPC id
  a snapshot names to exist, so it does not have that crash.
- `list_hosted_zones()` (lines 102 and 486) is called without a marker, so it returns only the first page
  of at most 100 zones. The model's listing holds every zone, so it does not model the zones on later pages
  going unseen.
- `create_table`, `list_tables` and `wait_until_exists` are left out. The table is taken to exist.
- The JSON round trip through `json.dumps` / `json.loads` with `json_serial` is left out. The describe
  response's datetimes and its other fields are stored by the source but not by the model. Only the `tags` and `extras` of the asset
  are modelled.
- The global `region` is never reassigned in `lambda_handler`, because `db_put_asset` and `db_fetch_asset`
  assign a local. So every association and zone creation carries the region "". The model passes no
  region. Whether the service accepts such a call is given by the `refused` and `refusedZones` sets.
- The call to `get_zone_id` at line 166 is left out. Its result is never used, and it cannot raise on the
  valid, non-empty host name that reaches it. The calls at lines 112 and 127 are part of
  Planner.ReverseSteps. The `next(...)` at line 193 is left out too, because its result is never used.
- A second run of a whole create is not proved to leave Route 53 as the first left it. Each block of upserts is
  idempotent (Execution.RunGroupIdempotent), but the second run sees the associations and the reverse zone the
  first run made, so it takes different steps.
- A public DNS name "" is bound on create but pruned from the snapshot, so the destroy reads it as unbound.
  Assets.PruneAssetFixed characterises the assets for which create and destroy read the same fields.
- Strings.Lower and Strings.Upper map only the ASCII letters. boto3 and `json` hand the handler unicode
  strings, whose `lower()` and `upper()` also map non-ASCII letters; the model leaves those unchanged.
- Strings.LStrip strips only ASCII whitespace (Strings.IsSpace). Unicode `lstrip()` also strips other
  whitespace, such as U+00A0; the model keeps it.
- Route 53 name normalisation, such as case and escapes, is left out. Zone names compare as stored.
- Provider.CreateZone: a zone the service does create is private and associated with the asset's VPC as
  the request asks. The caller reference and the delegation set it returns are not modelled.
- An empty `Reservations` list is left out: an unknown instance id raises ClientError from
  `describe_instances`. The same holds for an unknown load balancer.
- The bare `except:` around `set_lbv1_vars` is modelled on a tagged event. An event without a classic
  load balancer name is read by the v2 reader.
- ReverseZone.ReversedLabels keeps only the fourth regular expression of `reverse_list`, "a digit directly
  followed by a dot". With escaped dots, the first three patterns imply the fourth. Unescaped, their '.'
  matches any character, so the source also accepts strings such as "1a2b3c4". The model exits on those.
- ReverseZone.GetReversedDomainPrefix requires a dotted quad of octets. `lambda_handler` (Planner.ReadAsset)
  raises AttributeError for an address that `reverse_list` accepts but that is not a dotted quad. The
  regular expressions at lines 530-536 match some such addresses and yield a prefix where the model raises.
  Some matches use the unescaped '.', but others need no such match: "10.0.1" under a mask of 16 to 23
  gives "10.0.", and "1.2.3.4.5" under a mask of 24 or more gives "1.2.3.". Those prefixes are not modelled.
- Hostname.IsValidHostname: `$` in Python also matches before a final newline. The model rejects a label
  ending in a newline.
- Planner.ReadAsset: `int(cidr_block.split('/')[-1])` is the `masks` input. A malformed CIDR block is not
  modelled.
