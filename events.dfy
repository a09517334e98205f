/**
 * How an invocation finds its asset: the event is classified by source, a create
 * builds the asset from the describe response and stores its pruned snapshot, and a
 * destroy reads the snapshot back (`set_instance_vars`, `set_lbv1_vars`,
 * `set_lbv2_vars`, `db_put_asset`, `db_fetch_asset`).
 */
module Events {
  import opened Wrappers
  import opened Assets

  /** The fields of a CloudWatch event the handler reads, by source. */
  datatype Event =
    | Ec2StateChange(instanceId: string, state: string, region: string)  // source 'aws.ec2'
    | LbApiCall(                                                       // source 'aws.elasticloadbalancing'
        eventName: string,
        awsRegion: string,
        lbName: Option<string>,       // detail.requestParameters.loadBalancerName
        responseArn: Option<string>,  // detail.responseElements.loadBalancers[0].loadBalancerArn
        requestArn: Option<string>)   // detail.requestParameters.loadBalancerArn
    | OtherSource(source: string)

  /** The fields of `describe_instances` for one instance; a missing key is None. */
  datatype InstanceDesc = InstanceDesc(
    tags: Option<seq<Tag>>,
    privateIp: Option<string>,
    privateDnsName: Option<string>,
    publicIp: Option<string>,
    publicDnsName: Option<string>,
    subnetId: Option<string>,
    vpcId: Option<string>)

  /** The fields of a load balancer description, and its tags if `describe_tags` succeeds. */
  datatype LbDesc = LbDesc(
    scheme: Option<string>,
    dnsName: Option<string>,
    vpcId: Option<string>,
    tags: Option<seq<Tag>>)

  /** What the describe calls answer; an id missing from a map makes the call raise. */
  datatype Describe = Describe(
    instances: map<string, InstanceDesc>,
    classicLbs: map<string, LbDesc>,
    lbs: map<string, LbDesc>)

  /** The globals `asset_id`, `event_state` and `asset` once a `set_*_vars` returns. */
  datatype Loaded = Loaded(assetId: string, state: State, asset: Asset)

  type Table = map<string, Asset>

  /**
   * `db_put_asset`: the pruned snapshot is written, and then reading its region raises
   * KeyError when pruning removed it.
   */
  function PutAsset(table: Table, id: string, a: Asset): (r: (Table, Res<Loaded>))
    ensures r.0 == table[id := PruneAsset(a)]
    ensures r.1.Raise? <==> a.extras.region.None? || a.extras.region == Some("")
    ensures r.1.Raise? ==> r.1.exc == KeyError
    ensures r.1.Ok? ==> r.1.value == Loaded(id, Create, a)
  {
    var t := table[id := PruneAsset(a)];
    if PruneAsset(a).extras.region.None? then (t, Raise(KeyError)) else (t, Ok(Loaded(id, Create, a)))
  }

  /** `db_fetch_asset`: a missing item or a snapshot without a region raises KeyError. */
  function FetchAsset(table: Table, id: string): (r: Res<Loaded>)
    ensures r.Raise? <==> id !in table || table[id].extras.region.None?
    ensures r.Raise? ==> r.exc == KeyError
    ensures r.Ok? ==> r.value == Loaded(id, Destroy, table[id])
  {
    if id !in table || table[id].extras.region.None? then Raise(KeyError)
    else Ok(Loaded(id, Destroy, table[id]))
  }

  /** A destroy of an asset whose create was stored reads back the pruned snapshot, not the original. */
  lemma PutThenFetch(table: Table, id: string, a: Asset)
    requires PutAsset(table, id, a).1.Ok?
    ensures FetchAsset(PutAsset(table, id, a).0, id) == Ok(Loaded(id, Destroy, PruneAsset(a)))
  {
  }

  /** A create whose asset has nothing to prune is read back by the destroy exactly as it was built. */
  lemma PutThenFetchUnpruned(table: Table, id: string, a: Asset)
    requires PutAsset(table, id, a).1.Ok? && Unpruned(a)
    ensures FetchAsset(PutAsset(table, id, a).0, id) == Ok(Loaded(id, Destroy, a))
  {
    PutThenFetch(table, id, a);
    PruneAssetFixed(a);
  }

  function OrEmpty(tags: Option<seq<Tag>>): seq<Tag>
  {
    if tags.Some? then tags.value else []
  }

  /**
   * `set_instance_vars`: 'running' is a create, built from `describe_instances`, whose
   * missing private address, private DNS name, subnet or VPC raises KeyError; the
   * public DNS name is read only when a public address exists. Any other state is a
   * destroy.
   */
  function SetInstanceVars(instanceId: string, state: string, region: string, d: Describe, table: Table): (r: (Table, Res<Loaded>))
    ensures state != "running" ==> r == (table, FetchAsset(table, instanceId))
    ensures state == "running" && instanceId !in d.instances ==> r == (table, Raise(ClientError))
    ensures state == "running" && instanceId in d.instances ==>
      var i := d.instances[instanceId];
      var missing := i.privateIp.None? || i.privateDnsName.None? || i.subnetId.None? || i.vpcId.None?;
      (r.1.Raise? <==> missing || region == "") && (r.1.Raise? ==> r.1.exc == KeyError) &&
      (missing ==> r.0 == table)
    ensures r.1.Ok? && state == "running" ==>
      r.1.value.assetId == instanceId && r.1.value.state == Create && r.0 == table[instanceId := PruneAsset(r.1.value.asset)]
  {
    if state != "running" then (table, FetchAsset(table, instanceId))
    else if instanceId !in d.instances then (table, Raise(ClientError))
    else
      var i := d.instances[instanceId];
      if i.privateIp.None? || i.privateDnsName.None? || i.subnetId.None? || i.vpcId.None? then (table, Raise(KeyError))
      else
        var publicDns := if i.publicIp.Some? then i.publicDnsName else None;
        var extras := Extras(Instance, None, Some(region), None, i.privateIp, i.publicIp,
          i.privateDnsName, publicDns, i.subnetId, i.vpcId);
        PutAsset(table, instanceId, Asset(OrEmpty(i.tags), extras))
  }

  /**
   * An instance created from a full description carries the description's tags (none
   * when it has none), the event's region, and every address, name, subnet and VPC the
   * description gives; the public name only together with a public address.
   */
  lemma InstanceCreateFields(instanceId: string, region: string, d: Describe, table: Table)
    requires instanceId in d.instances && region != ""
    requires var i := d.instances[instanceId];
      i.privateIp.Some? && i.privateDnsName.Some? && i.subnetId.Some? && i.vpcId.Some?
    ensures var r := SetInstanceVars(instanceId, "running", region, d, table);
      var i := d.instances[instanceId];
      var e := r.1.value.asset.extras;
      r.1.Ok? && r.1.value.asset.tags == (if i.tags.Some? then i.tags.value else []) &&
      e.kind == Instance && e.region == Some(region) && e.version.None? && e.lbScheme.None? &&
      e.privateIp == i.privateIp && e.privateDnsName == i.privateDnsName &&
      e.subnetId == i.subnetId && e.vpcId == i.vpcId && e.publicIp == i.publicIp &&
      e.publicDnsName == (if i.publicIp.Some? then i.publicDnsName else None)
  {
  }

  /** The extras of a load balancer created from `lb`: the scheme decides which DNS name it is. */
  function LbExtras(version: string, region: string, lb: LbDesc): (r: Extras)
    requires lb.scheme.Some? && lb.dnsName.Some?
    ensures r.kind == Elb && r.version == Some(version) && r.region == Some(region)
    ensures r.lbScheme == lb.scheme && r.vpcId == lb.vpcId
    ensures r.privateIp.None? && r.publicIp.None? && r.subnetId.None?
    ensures lb.scheme == Some("internal") ==> r.privateDnsName == lb.dnsName && r.publicDnsName.None?
    ensures lb.scheme != Some("internal") ==> r.publicDnsName == lb.dnsName && r.privateDnsName.None?
  {
    var internal := lb.scheme == Some("internal");
    Extras(Elb, Some(version), Some(region), lb.scheme, None, None,
      if internal then lb.dnsName else None, if internal then None else lb.dnsName, None, lb.vpcId)
  }

  /**
   * Building a load balancer asset once its description is known: a description
   * without its scheme, DNS name or VPC raises KeyError before anything is stored.
   */
  function LbCreate(id: string, version: string, region: string, lb: LbDesc, table: Table): (r: (Table, Res<Loaded>))
    ensures var missing := lb.scheme.None? || lb.dnsName.None? || lb.vpcId.None?;
      (r.1.Raise? <==> missing || region == "") && (r.1.Raise? ==> r.1.exc == KeyError) &&
      (missing ==> r.0 == table)
    ensures r.1.Ok? ==>
      (r.1.value.assetId == id && r.1.value.state == Create &&
       r.1.value.asset.tags == (if lb.tags.Some? then lb.tags.value else []) &&
       r.0 == table[id := PruneAsset(r.1.value.asset)])
    ensures r.1.Ok? ==> var e := r.1.value.asset.extras;
      e.kind == Elb && e.version == Some(version) && e.region == Some(region) && e.lbScheme == lb.scheme &&
      e.vpcId == lb.vpcId && e.privateIp.None? && e.publicIp.None? && e.subnetId.None? &&
      (lb.scheme == Some("internal") ==> e.privateDnsName == lb.dnsName && e.publicDnsName.None?) &&
      (lb.scheme != Some("internal") ==> e.publicDnsName == lb.dnsName && e.privateDnsName.None?)
  {
    if lb.scheme.None? || lb.dnsName.None? || lb.vpcId.None? then (table, Raise(KeyError))
    else PutAsset(table, id, Asset(OrEmpty(lb.tags), LbExtras(version, region, lb)))
  }

  /** `set_lbv1_vars`: keyed by the classic load balancer's name. */
  function SetLbV1Vars(eventName: string, awsRegion: string, lbName: Option<string>, d: Describe, table: Table): (r: (Table, Res<Loaded>))
    ensures lbName.None? ==> r == (table, Raise(KeyError))
    ensures r.1.Ok? ==> r.1.value.assetId == lbName.value
    ensures eventName != "CreateLoadBalancer" ==> r.0 == table
    ensures lbName.Some? && eventName != "CreateLoadBalancer" ==> r == (table, FetchAsset(table, lbName.value))
    ensures lbName.Some? && eventName == "CreateLoadBalancer" ==>
      r == if lbName.value in d.classicLbs then LbCreate(lbName.value, "v1", awsRegion, d.classicLbs[lbName.value], table)
           else (table, Raise(ClientError))
  {
    match lbName
    case None => (table, Raise(KeyError))
    case Some(name) =>
      if eventName != "CreateLoadBalancer" then (table, FetchAsset(table, name))
      else if name !in d.classicLbs then (table, Raise(ClientError))
      else LbCreate(name, "v1", awsRegion, d.classicLbs[name], table)
  }

  /** `set_lbv2_vars`: a create is keyed by the ARN in the response, a destroy by the ARN in the request. */
  function SetLbV2Vars(eventName: string, awsRegion: string, responseArn: Option<string>, requestArn: Option<string>,
                       d: Describe, table: Table): (r: (Table, Res<Loaded>))
    ensures eventName == "CreateLoadBalancer" && responseArn.None? ==> r == (table, Raise(KeyError))
    ensures eventName != "CreateLoadBalancer" && requestArn.None? ==> r == (table, Raise(KeyError))
    ensures r.1.Ok? ==> r.1.value.assetId == (if eventName == "CreateLoadBalancer" then responseArn else requestArn).value
    ensures eventName != "CreateLoadBalancer" ==> r.0 == table
    ensures eventName != "CreateLoadBalancer" && requestArn.Some? ==> r == (table, FetchAsset(table, requestArn.value))
    ensures eventName == "CreateLoadBalancer" && responseArn.Some? ==>
      r == if responseArn.value in d.lbs then LbCreate(responseArn.value, "v2", awsRegion, d.lbs[responseArn.value], table)
           else (table, Raise(ClientError))
  {
    if eventName == "CreateLoadBalancer" then
      match responseArn
      case None => (table, Raise(KeyError))
      case Some(arn) =>
        if arn !in d.lbs then (table, Raise(ClientError))
        else LbCreate(arn, "v2", awsRegion, d.lbs[arn], table)
    else
      match requestArn
      case None => (table, Raise(KeyError))
      case Some(arn) => (table, FetchAsset(table, arn))
  }

  /**
   * The dispatch on the event source: EC2 events go to `set_instance_vars`; a load
   * balancer event tries `set_lbv1_vars` and, when that raises anything, runs
   * `set_lbv2_vars` on whatever table the first attempt left; other sources return at
   * once (None).
   */
  function Load(ev: Event, d: Describe, table: Table): (r: Option<(Table, Res<Loaded>)>)
    ensures r.None? <==> ev.OtherSource?
  {
    match ev
    case Ec2StateChange(id, state, region) => Some(SetInstanceVars(id, state, region, d, table))
    case LbApiCall(name, region, lbName, responseArn, requestArn) =>
      var (t1, r1) := SetLbV1Vars(name, region, lbName, d, table);
      if r1.Ok? then Some((t1, r1)) else Some(SetLbV2Vars(name, region, responseArn, requestArn, d, t1))
    case OtherSource(_) => None
  }

  /** The event alone decides the asset id and the state, ahead of any describe or table read. */
  function Classify(ev: Event): (r: Option<Res<(string, State)>>)
    ensures r.None? <==> ev.OtherSource?
  {
    match ev
    case Ec2StateChange(id, state, _) => Some(Ok((id, if state == "running" then Create else Destroy)))
    case LbApiCall(name, _, lbName, responseArn, requestArn) =>
      var st := if name == "CreateLoadBalancer" then Create else Destroy;
      if lbName.Some? then Some(Ok((lbName.value, st)))
      else
        var arn := if st == Create then responseArn else requestArn;
        if arn.Some? then Some(Ok((arn.value, st))) else Some(Raise(KeyError))
    case OtherSource(_) => None
  }

  /**
   * On an event that names its load balancer one way only (a classic name, or ARNs),
   * a successful load has loaded the asset and state the event names.
   */
  lemma LoadAgreesWithClassify(ev: Event, d: Describe, table: Table)
    requires Load(ev, d, table).Some? && Load(ev, d, table).value.1.Ok?
    requires ev.LbApiCall? ==> ev.lbName.None? || (ev.responseArn.None? && ev.requestArn.None?)
    ensures Classify(ev).value.Ok?
    ensures Classify(ev).value.value ==
      (Load(ev, d, table).value.1.value.assetId, Load(ev, d, table).value.1.value.state)
  {
  }

  /**
   * An event naming both a classic load balancer and an ARN can load under the ARN:
   * the classic destroy finds no snapshot, and the fallback reads the one under the ARN.
   */
  lemma LoadDisagreesWithClassify(a: Asset)
    requires a.extras.region.Some?
    ensures var ev := LbApiCall("DeleteLoadBalancer", "r", Some("n"), None, Some("arn"));
      var table := map["arn" := a];
      Load(ev, Describe(map[], map[], map[]), table) == Some((table, Ok(Loaded("arn", Destroy, a)))) &&
      Classify(ev) == Some(Ok(("n", Destroy)))
  {
    var table := map["arn" := a];
    assert "n" !in table;
  }

  /** An event from a v2 load balancer (no name in the request) is loaded by `set_lbv2_vars` alone. */
  lemma V2EventSkipsV1(eventName: string, region: string, responseArn: Option<string>, requestArn: Option<string>,
                       d: Describe, table: Table)
    ensures Load(LbApiCall(eventName, region, None, responseArn, requestArn), d, table) ==
      Some(SetLbV2Vars(eventName, region, responseArn, requestArn, d, table))
  {
  }

  /** Loading for a destroy never writes the table. */
  lemma DestroyLeavesTable(ev: Event, d: Describe, table: Table)
    requires ev.Ec2StateChange? ==> ev.state != "running"
    requires ev.LbApiCall? ==> ev.eventName != "CreateLoadBalancer"
    requires !ev.OtherSource?
    ensures Load(ev, d, table).value.0 == table
  {
  }
}
