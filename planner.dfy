/**
 * The decisions of `lambda_handler` once the asset is loaded: what it reads from the
 * asset, the reverse lookup zone branch, the ZONE and CNAME tag rules, the DHCP
 * option rule and the final cleanup, each as the list of steps it issues.  Every
 * choice depends only on the zone listing taken before the first step, so the steps
 * can be planned from that listing and then run.
 */
module Planner {
  import opened Wrappers
  import opened Strings
  import opened Hostname
  import opened ReverseZone
  import opened Assets
  import opened Zones
  import opened Records
  import opened Provider
  import opened Execution

  /** The locals `lambda_handler` holds once it has read the asset. */
  datatype Context = Context(
    assetId: string,
    state: State,
    vpcId: string,
    privateIp: Var<string>,
    publicIp: Var<string>,
    privateDnsName: Var<string>,
    publicDnsName: Var<string>,
    privateHost: string,
    publicHost: string,
    reversedIp: Var<string>,
    reverseZone: string)

  /** A DNS name read inside a `try:` and its host label; the host stays "" when the name is missing. */
  function DnsName(o: Option<string>): (r: (Var<string>, string))
    ensures o.None? ==> r == (Unbound, "")
    ensures o.Some? ==> r == (Bound(o.value), HostOf(o.value))
  {
    match o
    case None => (Unbound, "")
    case Some(n) => (Bound(n), HostOf(n))
  }

  function OptVar(o: Option<string>): Var<string>
  {
    if o.Some? then Bound(o.value) else Unbound
  }

  /** The VPC id and the DNS names, read for every kind of asset. */
  function Common(id: string, state: State, a: Asset, privateIp: Var<string>, publicIp: Var<string>,
                  reversedIp: Var<string>, reverseZone: string): (r: Res<Context>)
    ensures r.Raise? <==> a.extras.vpcId.None?
    ensures r.Raise? ==> r.exc == KeyError
  {
    if a.extras.vpcId.None? then Raise(KeyError)
    else
      var (privateDns, privateHost) := DnsName(a.extras.privateDnsName);
      var (publicDns, publicHost) := DnsName(a.extras.publicDnsName);
      Ok(Context(id, state, a.extras.vpcId.value, privateIp, publicIp, privateDns, publicDns,
        privateHost, publicHost, reversedIp, reverseZone))
  }

  /**
   * An instance whose locals cannot be read: a missing private address or subnet, a
   * subnet the lookup does not know, or an address `reverse_list` or the prefix
   * computation rejects.
   */
  predicate InstanceUnreadable(e: Extras, masks: map<string, int>)
  {
    e.privateIp.None? || e.subnetId.None? || e.subnetId.value !in masks ||
    ReversedLabels(e.privateIp.value).Raise? || !IsDottedQuad(e.privateIp.value)
  }

  /**
   * The locals of `lambda_handler` up to the DNS names: an instance needs its private
   * address (KeyError), its subnet (KeyError, then ClientError from the subnet lookup)
   * and an address `reverse_list` accepts (`sys.exit()`), and its reverse zone is
   * derived from the subnet mask; a load balancer binds neither address and has no
   * reverse zone.
   */
  function ReadAsset(id: string, state: State, a: Asset, masks: map<string, int>): (r: Res<Context>)
    ensures a.extras.kind == Elb && r.Ok? ==>
      r.value.privateIp.Unbound? && r.value.publicIp.Unbound? && r.value.reversedIp.Unbound? && r.value.reverseZone == ""
    ensures a.extras.kind == Instance && r.Ok? ==>
      r.value.privateIp.Bound? && IsDottedQuad(r.value.privateIp.val) &&
      EndsWith(r.value.reverseZone, "in-addr.arpa.") &&
      r.value.reversedIp == Bound(Dotted(Reverse(Split(r.value.privateIp.val, '.'))))
    ensures r.Ok? ==> r.value.assetId == id && r.value.state == state
    ensures r.Ok? ==> a.extras.vpcId.Some? && r.value.vpcId == a.extras.vpcId.value
    ensures r.Ok? ==>
      (r.value.privateDnsName, r.value.privateHost) == DnsName(a.extras.privateDnsName) &&
      (r.value.publicDnsName, r.value.publicHost) == DnsName(a.extras.publicDnsName)
    ensures a.extras.kind == Instance && r.Ok? ==>
      a.extras.privateIp.Some? && a.extras.subnetId.Some? && a.extras.subnetId.value in masks &&
      IsDottedQuad(a.extras.privateIp.value) &&
      r.value.privateIp == Bound(a.extras.privateIp.value) && r.value.publicIp == OptVar(a.extras.publicIp) &&
      r.value.reverseZone == ReverseLookupZone(masks[a.extras.subnetId.value], a.extras.privateIp.value)
    ensures r.Raise? <==> a.extras.vpcId.None? || (a.extras.kind == Instance && InstanceUnreadable(a.extras, masks))
    ensures a.extras.kind == Instance && (a.extras.privateIp.None? || a.extras.subnetId.None?) ==> r == Raise(KeyError)
    ensures a.extras.kind == Instance && a.extras.privateIp.Some? && a.extras.subnetId.Some? ==>
      (a.extras.subnetId.value !in masks ==> r == Raise(ClientError)) &&
      (a.extras.subnetId.value in masks && ReversedLabels(a.extras.privateIp.value).Raise? ==> r == Raise(SystemExit)) &&
      ((a.extras.subnetId.value in masks && ReversedLabels(a.extras.privateIp.value).Ok? &&
        !IsDottedQuad(a.extras.privateIp.value)) ==> r == Raise(AttributeError))
    ensures a.extras.kind == Elb && a.extras.vpcId.None? ==> r == Raise(KeyError)
  {
    match a.extras.kind
    case Elb => Common(id, state, a, Unbound, Unbound, Unbound, "")
    case Instance =>
      if a.extras.privateIp.None? || a.extras.subnetId.None? then Raise(KeyError)
      else if a.extras.subnetId.value !in masks then Raise(ClientError)
      else
        var ip := a.extras.privateIp.value;
        var mask := masks[a.extras.subnetId.value];
        match ReversedLabels(ip)
        case Raise(e) => Raise(e)
        case Ok(reversedIp) =>
          if !IsDottedQuad(ip) then Raise(AttributeError)
          else
            ReversedAddress(ip);
            Common(id, state, a, Bound(ip), OptVar(a.extras.publicIp), Bound(reversedIp), ReverseLookupZone(mask, ip))
  }

  /** The state is carried through untouched: a destroy reads the same locals as a create of the same asset. */
  lemma ReadAssetState(id: string, a: Asset, masks: map<string, int>)
    ensures ReadAsset(id, Create, a, masks).Raise? ==> ReadAsset(id, Destroy, a, masks) == ReadAsset(id, Create, a, masks)
    ensures ReadAsset(id, Create, a, masks).Ok? ==>
      ReadAsset(id, Destroy, a, masks) == Ok(Destroyed(ReadAsset(id, Create, a, masks).value))
  {
  }

  /**
   * The reverse lookup zone branch and the `reverse_lookup_zone_id` it leaves: a zone
   * already listed under the name is looked up and the VPC associated if missing (a
   * refusal is ignored); otherwise a create of an instance makes the zone and reads
   * its id back; otherwise the id stays unbound.
   */
  function ReverseSteps(ctx: Context, zones: seq<Zone>, newId: string): (r: (seq<Step>, Var<Option<string>>))
    ensures |r.0| <= 1
    ensures r.0 == [] <==> r.1.Unbound? && FirstNamed(zones, ctx.reverseZone).None?
    ensures (exists s :: s in r.0 && s.CreateReverseZone?) ==> ctx.state == Create && ctx.reverseZone != ""
    ensures FirstNamed(zones, ctx.reverseZone).Some? && ctx.reverseZone != "" ==>
      GetZoneId(zones, ctx.reverseZone).Ok? &&
      r == ([Properties(GetZoneId(zones, ctx.reverseZone).value, ctx.vpcId, AssociateOrIgnore)],
            Bound(GetZoneId(zones, ctx.reverseZone).value))
    ensures FirstNamed(zones, ctx.reverseZone).Some? && ctx.reverseZone == "" ==> r == ([Halt(IndexError)], Unbound)
    ensures FirstNamed(zones, ctx.reverseZone).None? && ctx.state == Create && ctx.reverseZone != "" ==>
      r.0 == [CreateReverseZone(ctx.reverseZone, ctx.vpcId, newId)]
  {
    if FirstNamed(zones, ctx.reverseZone).Some? then
      match GetZoneId(zones, ctx.reverseZone)
      case Raise(e) => ([Halt(e)], Unbound)
      case Ok(rid) => ([Properties(rid, ctx.vpcId, AssociateOrIgnore)], Bound(rid))
    else if ctx.state == Create && ctx.reverseZone != "" then
      var name := ctx.reverseZone;
      ([CreateReverseZone(name, ctx.vpcId, newId)], Bound(GetZoneId(zones + [NewZone(name, ctx.vpcId, newId)], name).value))
    else ([], Unbound)
  }

  /**
   * A reverse zone already listed: the run looks its VPCs up and associates the VPC
   * when it is missing; a refused association is ignored, so this step never exits, and
   * unless the pair is refused the VPC ends up associated with the zone.
   */
  lemma ReverseListedAssociates(w: World, ctx: Context, zones: seq<Zone>, newId: string)
    requires FirstNamed(zones, ctx.reverseZone).Some? && ctx.reverseZone != ""
    ensures var o := Execute(w, ReverseSteps(ctx, zones, newId).0);
      var z := GetZoneId(zones, ctx.reverseZone).value;
      o.halted != Some(SystemExit) && o.world.table == w.table && o.world.dns.records == w.dns.records &&
      (o.halted.None? && z.Some? && (z.value, ctx.vpcId) !in w.dns.refused ==>
        ZoneVpcs(o.world.dns, z.value).Ok? && ctx.vpcId in ZoneVpcs(o.world.dns, z.value).value)
  {
    var z := GetZoneId(zones, ctx.reverseZone).value;
    var step := Properties(z, ctx.vpcId, AssociateOrIgnore);
    assert ReverseSteps(ctx, zones, newId).0 == [step];
    assert Execute(w, [step]) == ExecStep(w, step);
  }

  /**
   * A reverse zone whose creation the service refuses ends the invocation there, before
   * the tag loop: `create_reverse_lookup_zone` sits outside every `try:`.
   */
  lemma RefusedReverseZoneEndsRun(w: World, ctx: Context, tags: seq<Tag>, zones: seq<Zone>,
                                  dhcp: Option<seq<seq<string>>>, newId: string)
    requires Collection(zones, true).Ok? && Collection(zones, false).Ok?
    requires FirstNamed(zones, ctx.reverseZone).None? && ctx.state == Create && ctx.reverseZone != ""
    requires ctx.reverseZone in w.dns.refusedZones
    ensures Execute(w, Plan(ctx, tags, zones, dhcp, newId)) == Outcome(w, Some(ClientError))
  {
    PlanParts(ctx, tags, zones, dhcp, newId);
    var rs := ReverseSteps(ctx, zones, newId);
    var priv := Collection(zones, true).value;
    var rest := AllTagSteps(ctx, rs.1, priv, Collection(zones, false).value, tags) + (DhcpPart(ctx, rs.1, priv, dhcp) + Cleanup(ctx));
    assert Execute(w, rs.0) == Outcome(w, Some(ClientError));
    ExecuteHalted(w, rs.0, rest);
  }

  /** A newly made reverse zone is found again under the fresh id. */
  lemma ReverseZoneCreated(ctx: Context, zones: seq<Zone>, newId: string)
    requires FirstNamed(zones, ctx.reverseZone).None?
    requires ctx.state == Create && EndsWith(ctx.reverseZone, "in-addr.arpa.")
    requires '/' !in newId
    ensures ReverseSteps(ctx, zones, newId) ==
      ([CreateReverseZone(ctx.reverseZone, ctx.vpcId, newId)], Bound(Some(newId)))
  {
    var name := ctx.reverseZone;
    assert name[|name| - 1] == "in-addr.arpa."[12];
    GetZoneIdOfNew(zones, name, newId, ctx.vpcId);
  }

  function ActionFor(state: State): (r: Action)
    ensures r == Upsert <==> state == Create
  {
    if state == Create then Upsert else Delete
  }

  /** A create associates a missing VPC and exits when refused; a destroy never associates. */
  function AssocFor(state: State): (r: Assoc)
    ensures r != AssociateOrIgnore
    ensures r == NoAssociate <==> state.Destroy?
  {
    if state.Create? then AssociateOrExit else NoAssociate
  }

  /** The private zone steps shared by the ZONE tag and the DHCP rule: the zone lookup, then A and PTR in one block. */
  function PrivateSteps(ctx: Context, rid: Var<Option<string>>, e: Entry): (r: seq<Step>)
    ensures |r| == 2 && r[0] == Properties(Some(e.id), ctx.vpcId, AssocFor(ctx.state)) && r[1].Try?
    ensures |r[1].writes| == 2
    ensures r[1].writes[0] == Write(ActionFor(ctx.state), A, Bound(Some(e.id)), Bound(ctx.privateHost), e.name, ctx.privateIp)
    ensures r[1].writes[1] == Write(ActionFor(ctx.state), PTR, rid, ctx.reversedIp, "in-addr.arpa", ctx.privateDnsName)
  {
    var act := ActionFor(ctx.state);
    [Properties(Some(e.id), ctx.vpcId, AssocFor(ctx.state)),
     Try([Write(act, A, Bound(Some(e.id)), Bound(ctx.privateHost), e.name, ctx.privateIp),
          Write(act, PTR, rid, ctx.reversedIp, "in-addr.arpa", ctx.privateDnsName)])]
  }

  /** The public zone step of the ZONE tag: an A record to the public address. */
  function PublicStep(ctx: Context, e: Entry): Step
  {
    Try([Write(ActionFor(ctx.state), A, Bound(Some(e.id)), Bound(ctx.publicHost), e.name, ctx.publicIp)])
  }

  /** The ZONE tag for one tag value: `is_valid_hostname` first, then the rule. */
  function ZoneTagSteps(ctx: Context, rid: Var<Option<string>>, priv: seq<Entry>, pub: seq<Entry>, value: Option<string>): seq<Step>
  {
    match IsValidHostname(value)
    case Raise(e) => [Halt(e)]
    case Ok(valid) => if valid then ZoneRule(ctx, rid, priv, pub, value.value) else []
  }

  /** The ZONE rule for a valid value: the private zone under its name, else the public one. */
  function ZoneRule(ctx: Context, rid: Var<Option<string>>, priv: seq<Entry>, pub: seq<Entry>, v: string): seq<Step>
  {
    var p := FirstKeyed(priv, NameKey(v));
    var u := FirstKeyed(pub, NameKey(v));
    if p.Some? && ctx.privateHost != "" then PrivateSteps(ctx, rid, p.value)
    else if u.Some? && ctx.publicHost != "" then [PublicStep(ctx, u.value)]
    else []
  }

  /** The public CNAME blocks, one per public zone the value ends with. */
  function PublicCnames(ctx: Context, host: string, zs: seq<Entry>): (r: seq<Step>)
    ensures |r| == |zs|
    ensures forall i :: 0 <= i < |zs| ==>
      r[i] == Try([Write(ActionFor(ctx.state), CNAME, Bound(Some(zs[i].id)), Bound(host), zs[i].name, ctx.publicDnsName)])
  {
    seq(|zs|, i requires 0 <= i < |zs| =>
      Try([Write(ActionFor(ctx.state), CNAME, Bound(Some(zs[i].id)), Bound(host), zs[i].name, ctx.publicDnsName)]))
  }

  /** The CNAME tag for one tag value: `is_valid_hostname` first, then the rule. */
  function CnameTagSteps(ctx: Context, priv: seq<Entry>, pub: seq<Entry>, value: Option<string>): seq<Step>
  {
    match IsValidHostname(value)
    case Raise(e) => [Halt(e)]
    case Ok(valid) => if valid then CnameRule(ctx, priv, pub, value.value) else []
  }

  /** The CNAME rule for a valid value, on its normalised form `value.lstrip().lower()`. */
  function CnameRule(ctx: Context, priv: seq<Entry>, pub: seq<Entry>, v: string): seq<Step>
  {
    var cname := NameKey(v);
    var split := CnameSplit(cname);
    if split.Raise? then [Halt(split.exc)]
    else PrivateCname(ctx, priv, split.value.0, split.value.1) + PublicCnames(ctx, split.value.0, SuffixZones(pub, cname))
  }

  /** The private CNAME block: into the first private zone named by the suffix, if any. */
  function PrivateCname(ctx: Context, priv: seq<Entry>, host: string, suffix: string): (r: seq<Step>)
    ensures |r| == if FirstKeyed(priv, suffix).Some? then 1 else 0
    ensures r != [] ==> CnameBlock(r[0], ctx.privateDnsName) && NameKey(r[0].writes[0].zoneName) == suffix
  {
    match FirstKeyed(priv, suffix)
    case None => []
    case Some(e) => [Try([Write(ActionFor(ctx.state), CNAME, Bound(Some(e.id)), Bound(host), e.name, ctx.privateDnsName)])]
  }

  /** One record-write block holding a single CNAME write to `target`. */
  predicate CnameBlock(st: Step, target: Var<string>)
  {
    st.Try? && |st.writes| == 1 && st.writes[0].rtype == CNAME && st.writes[0].value == target
  }

  /** Whether `'WORD' in key.lstrip().upper()`. */
  predicate KeyNames(key: string, word: string)
  {
    Contains(Upper(LStrip(key)), word)
  }

  /** One tag: the ZONE rule and then, independently, the CNAME rule; a tag without a key raises AttributeError. */
  function TagSteps(ctx: Context, rid: Var<Option<string>>, priv: seq<Entry>, pub: seq<Entry>, tag: Tag): seq<Step>
  {
    match tag.key
    case None => [Halt(AttributeError)]
    case Some(k) =>
      (if KeyNames(k, "ZONE") then ZoneTagSteps(ctx, rid, priv, pub, tag.value) else []) +
      (if KeyNames(k, "CNAME") then CnameTagSteps(ctx, priv, pub, tag.value) else [])
  }

  /** The tag loop. */
  function AllTagSteps(ctx: Context, rid: Var<Option<string>>, priv: seq<Entry>, pub: seq<Entry>, tags: seq<Tag>): seq<Step>
  {
    if tags == [] then [] else TagSteps(ctx, rid, priv, pub, tags[0]) + AllTagSteps(ctx, rid, priv, pub, tags[1..])
  }

  /**
   * A ZONE tag whose value is "" raises IndexError on create, but the snapshot drops the
   * empty value, so the destroy reads a ZONE tag with no value and skips it.
   */
  lemma EmptyZoneValue(ctx: Context, rid: Var<Option<string>>, priv: seq<Entry>, pub: seq<Entry>)
    ensures TagSteps(ctx, rid, priv, pub, Tag(Some("ZONE"), Some(""))) == [Halt(IndexError)]
    ensures PruneTags([Tag(Some("ZONE"), Some(""))]) == [Tag(Some("ZONE"), None)]
    ensures TagSteps(ctx, rid, priv, pub, Tag(Some("ZONE"), None)) == []
  {
    ZoneKey();
  }

  lemma ZoneKey()
    ensures KeyNames("ZONE", "ZONE") && !KeyNames("ZONE", "CNAME")
  {
    assert LStrip("ZONE") == "ZONE";
    assert Upper("ZONE") == "ZONE";
    ContainsLonger("ZONE", "CNAME");
  }

  /**
   * One DHCP option: only its first value is compared. An option without values raises
   * IndexError: in the lookup when there is a private zone to compare it with, and in
   * the message for a missing zone otherwise.
   */
  function ConfigSteps(ctx: Context, rid: Var<Option<string>>, priv: seq<Entry>, config: seq<string>): seq<Step>
  {
    if config == [] then [Halt(IndexError)]
    else match FirstKeyed(priv, NameKey(config[0]))
      case None => []
      case Some(e) => PrivateSteps(ctx, rid, e)
  }

  /** The DHCP loop. */
  function DhcpSteps(ctx: Context, rid: Var<Option<string>>, priv: seq<Entry>, configs: seq<seq<string>>): seq<Step>
  {
    if configs == [] then [] else ConfigSteps(ctx, rid, priv, configs[0]) + DhcpSteps(ctx, rid, priv, configs[1..])
  }

  /** After all record work, a destroy removes the snapshot. */
  function Cleanup(ctx: Context): (r: seq<Step>)
    ensures ctx.state == Create ==> r == []
    ensures ctx.state == Destroy ==> r == [DeleteSnapshot(ctx.assetId)]
  {
    if ctx.state == Destroy then [DeleteSnapshot(ctx.assetId)] else []
  }

  /**
   * Everything after the asset is read, in the handler's order. A VPC without DHCP
   * options (None) ends the run with `sys.exit()` after the tag loop.
   */
  function Plan(ctx: Context, tags: seq<Tag>, zones: seq<Zone>, dhcp: Option<seq<seq<string>>>, newId: string): (r: seq<Step>)
    ensures Collection(zones, true).Raise? || Collection(zones, false).Raise? ==> r == [Halt(IndexError)]
  {
    var priv := Collection(zones, true);
    var pub := Collection(zones, false);
    if priv.Raise? || pub.Raise? then [Halt(IndexError)]
    else
      var (rsteps, rid) := ReverseSteps(ctx, zones, newId);
      rsteps + AllTagSteps(ctx, rid, priv.value, pub.value, tags) + DhcpPart(ctx, rid, priv.value, dhcp) + Cleanup(ctx)
  }

  /** The DHCP part of a plan: `sys.exit()` when the VPC has no option set. */
  function DhcpPart(ctx: Context, rid: Var<Option<string>>, priv: seq<Entry>, dhcp: Option<seq<seq<string>>>): seq<Step>
  {
    if dhcp.None? then [Halt(SystemExit)] else DhcpSteps(ctx, rid, priv, dhcp.value)
  }

  /** A plan over a listing whose ids all parse is its four parts, in order. */
  lemma PlanParts(ctx: Context, tags: seq<Tag>, zones: seq<Zone>, dhcp: Option<seq<seq<string>>>, newId: string)
    requires Collection(zones, true).Ok? && Collection(zones, false).Ok?
    ensures var rs := ReverseSteps(ctx, zones, newId);
      var priv := Collection(zones, true).value;
      Plan(ctx, tags, zones, dhcp, newId) ==
        rs.0 + (AllTagSteps(ctx, rs.1, priv, Collection(zones, false).value, tags) + (DhcpPart(ctx, rs.1, priv, dhcp) + Cleanup(ctx)))
  {
    var rs := ReverseSteps(ctx, zones, newId);
    var priv := Collection(zones, true).value;
    Regroup(rs.0, AllTagSteps(ctx, rs.1, priv, Collection(zones, false).value, tags), DhcpPart(ctx, rs.1, priv, dhcp), Cleanup(ctx));
  }

  lemma Regroup(a: seq<Step>, b: seq<Step>, c: seq<Step>, d: seq<Step>)
    ensures a + b + c + d == a + (b + (c + d))
  {
  }

  // ---- The ZONE and CNAME tag rules ----

  /** A valid value goes on to the rules; an invalid one issues nothing; an empty one raises IndexError. */
  lemma ValidatedValue(ctx: Context, rid: Var<Option<string>>, priv: seq<Entry>, pub: seq<Entry>, value: Option<string>)
    ensures IsValidHostname(value) == Ok(true) ==>
      ZoneTagSteps(ctx, rid, priv, pub, value) == ZoneRule(ctx, rid, priv, pub, value.value) &&
      CnameTagSteps(ctx, priv, pub, value) == CnameRule(ctx, priv, pub, value.value)
    ensures IsValidHostname(value) == Ok(false) ==>
      ZoneTagSteps(ctx, rid, priv, pub, value) == [] && CnameTagSteps(ctx, priv, pub, value) == []
    ensures value == Some("") ==>
      ZoneTagSteps(ctx, rid, priv, pub, value) == [Halt(IndexError)] && CnameTagSteps(ctx, priv, pub, value) == [Halt(IndexError)]
    ensures value.None? ==> ZoneTagSteps(ctx, rid, priv, pub, value) == [] && CnameTagSteps(ctx, priv, pub, value) == []
  {
  }

  /** A private zone under the tag's name wins over any public one, provided the private DNS name has a host. */
  lemma ZoneRulePrefersPrivate(ctx: Context, rid: Var<Option<string>>, priv: seq<Entry>, pub: seq<Entry>, v: string, i: int)
    requires 0 <= i < |priv| && NameKey(priv[i].name) == NameKey(v) && NoMatchBefore(priv, NameKey(v), i)
    requires ctx.privateHost != ""
    ensures ZoneRule(ctx, rid, priv, pub, v) == PrivateSteps(ctx, rid, priv[i])
  {
    FirstKeyedAt(priv, NameKey(v), i);
  }

  /** Without a usable private zone, the first public zone under the name gets one A record to the public address. */
  lemma ZoneRuleFallsBackToPublic(ctx: Context, rid: Var<Option<string>>, priv: seq<Entry>, pub: seq<Entry>, v: string, i: int)
    requires ctx.privateHost == "" || forall j :: 0 <= j < |priv| ==> NameKey(priv[j].name) != NameKey(v)
    requires 0 <= i < |pub| && NameKey(pub[i].name) == NameKey(v) && NoMatchBefore(pub, NameKey(v), i)
    requires ctx.publicHost != ""
    ensures ZoneRule(ctx, rid, priv, pub, v) ==
      [Try([Write(ActionFor(ctx.state), A, Bound(Some(pub[i].id)), Bound(ctx.publicHost), pub[i].name, ctx.publicIp)])]
  {
    FirstKeyedSpec(priv, NameKey(v));
    FirstKeyedAt(pub, NameKey(v), i);
  }

  /** A name no zone carries issues nothing. */
  lemma ZoneRuleNoMatch(ctx: Context, rid: Var<Option<string>>, priv: seq<Entry>, pub: seq<Entry>, v: string)
    requires forall j :: 0 <= j < |priv| ==> NameKey(priv[j].name) != NameKey(v)
    requires forall j :: 0 <= j < |pub| ==> NameKey(pub[j].name) != NameKey(v)
    ensures ZoneRule(ctx, rid, priv, pub, v) == []
  {
    FirstKeyedSpec(priv, NameKey(v));
    FirstKeyedSpec(pub, NameKey(v));
  }

  /**
   * The CNAME rule gives at most one private CNAME, to the private DNS name, then
   * exactly one CNAME per public zone whose name ends the value, each to the public
   * DNS name and each in a block of its own.
   */
  lemma CnameRuleShape(ctx: Context, priv: seq<Entry>, pub: seq<Entry>, v: string)
    requires CnameSplit(NameKey(v)).Ok?
    ensures var cname := NameKey(v);
      var steps := CnameRule(ctx, priv, pub, v);
      var k := if FirstKeyed(priv, CnameSplit(cname).value.1).Some? then 1 else 0;
      |steps| == k + |SuffixZones(pub, cname)| &&
      (k == 1 ==> CnameBlock(steps[0], ctx.privateDnsName) &&
                  NameKey(steps[0].writes[0].zoneName) == CnameSplit(cname).value.1) &&
      forall i :: k <= i < |steps| ==>
        CnameBlock(steps[i], ctx.publicDnsName) && EndsWith(cname, steps[i].writes[0].zoneName)
  {
    CnameRulePrivatePart(ctx, priv, pub, v);
    CnameRulePublicPart(ctx, priv, pub, v);
  }

  lemma CnameRulePrivatePart(ctx: Context, priv: seq<Entry>, pub: seq<Entry>, v: string)
    requires CnameSplit(NameKey(v)).Ok?
    ensures var (host, suffix) := CnameSplit(NameKey(v)).value;
      var ps := PrivateCname(ctx, priv, host, suffix);
      var steps := CnameRule(ctx, priv, pub, v);
      |steps| == |ps| + |SuffixZones(pub, NameKey(v))| && (ps != [] ==> steps[0] == ps[0])
  {
    CnameRuleUnfold(ctx, priv, pub, v);
  }

  lemma CnameRulePublicPart(ctx: Context, priv: seq<Entry>, pub: seq<Entry>, v: string)
    requires CnameSplit(NameKey(v)).Ok?
    ensures var cname := NameKey(v);
      var k := |PrivateCname(ctx, priv, CnameSplit(cname).value.0, CnameSplit(cname).value.1)|;
      var steps := CnameRule(ctx, priv, pub, v);
      forall i :: k <= i < |steps| ==>
        CnameBlock(steps[i], ctx.publicDnsName) && EndsWith(cname, steps[i].writes[0].zoneName)
  {
    var cname := NameKey(v);
    var host := CnameSplit(cname).value.0;
    var ps := PrivateCname(ctx, priv, host, CnameSplit(cname).value.1);
    var us := PublicCnames(ctx, host, SuffixZones(pub, cname));
    CnameRuleUnfold(ctx, priv, pub, v);
    PublicCnamesBlocks(ctx, host, cname, pub);
    AppendedBlocks(ps, us, ctx.publicDnsName, cname);
  }

  /** What holds of every block of `us` holds of the tail of `ps + us`. */
  lemma AppendedBlocks(ps: seq<Step>, us: seq<Step>, target: Var<string>, cname: string)
    requires forall j :: 0 <= j < |us| ==> CnameBlock(us[j], target) && EndsWith(cname, us[j].writes[0].zoneName)
    ensures forall i :: |ps| <= i < |ps + us| ==>
      CnameBlock((ps + us)[i], target) && EndsWith(cname, (ps + us)[i].writes[0].zoneName)
  {
    forall i | |ps| <= i < |ps + us|
      ensures CnameBlock((ps + us)[i], target) && EndsWith(cname, (ps + us)[i].writes[0].zoneName)
    {
      assert (ps + us)[i] == us[i - |ps|];
    }
  }

  lemma PublicCnamesBlocks(ctx: Context, host: string, cname: string, pub: seq<Entry>)
    ensures var us := PublicCnames(ctx, host, SuffixZones(pub, cname));
      forall j :: 0 <= j < |us| ==> CnameBlock(us[j], ctx.publicDnsName) && EndsWith(cname, us[j].writes[0].zoneName)
  {
    var zs := SuffixZones(pub, cname);
    forall j | 0 <= j < |zs|
      ensures EndsWith(cname, zs[j].name)
    {
      assert zs[j] in zs;
    }
  }

  // ---- Tags ----

  /** A key naming both words runs the ZONE rule and then the CNAME rule on the same value. */
  lemma TagRunsBothRules(ctx: Context, rid: Var<Option<string>>, priv: seq<Entry>, pub: seq<Entry>, tag: Tag)
    requires tag.key.Some? && KeyNames(tag.key.value, "ZONE") && KeyNames(tag.key.value, "CNAME")
    ensures TagSteps(ctx, rid, priv, pub, tag) ==
      ZoneTagSteps(ctx, rid, priv, pub, tag.value) + CnameTagSteps(ctx, priv, pub, tag.value)
  {
  }

  /** A key naming neither word is ignored. */
  lemma TagIgnored(ctx: Context, rid: Var<Option<string>>, priv: seq<Entry>, pub: seq<Entry>, tag: Tag)
    requires tag.key.Some? && !KeyNames(tag.key.value, "ZONE") && !KeyNames(tag.key.value, "CNAME")
    ensures TagSteps(ctx, rid, priv, pub, tag) == []
  {
  }

  lemma TagLoopStep(ctx: Context, rid: Var<Option<string>>, priv: seq<Entry>, pub: seq<Entry>, tags: seq<Tag>, i: int)
    requires 0 <= i < |tags|
    ensures AllTagSteps(ctx, rid, priv, pub, tags[i..]) ==
      TagSteps(ctx, rid, priv, pub, tags[i]) + AllTagSteps(ctx, rid, priv, pub, tags[i + 1..])
  {
    assert tags[i..][1..] == tags[i + 1..];
  }

  // ---- DHCP options ----

  /** Only the first value of a DHCP option is compared with the private zones. */
  lemma ConfigFirstValueOnly(ctx: Context, rid: Var<Option<string>>, priv: seq<Entry>, v: string, rest: seq<string>, rest': seq<string>)
    ensures ConfigSteps(ctx, rid, priv, [v] + rest) == ConfigSteps(ctx, rid, priv, [v] + rest')
    ensures ConfigSteps(ctx, rid, priv, [v] + rest) ==
      if FirstKeyed(priv, NameKey(v)).Some? then PrivateSteps(ctx, rid, FirstKeyed(priv, NameKey(v)).value) else []
  {
    assert ([v] + rest)[0] == v && ([v] + rest')[0] == v;
  }

  /** An option without values raises IndexError, whatever the private zones. */
  lemma ConfigWithoutValues(ctx: Context, rid: Var<Option<string>>, priv: seq<Entry>)
    ensures ConfigSteps(ctx, rid, priv, []) == [Halt(IndexError)]
  {
  }

  /**
   * An option without values ends the run inside the DHCP loop, so a destroy never
   * reaches its cleanup and the snapshot stays in the table.
   */
  lemma EmptyOptionKeepsSnapshot(w: World, ctx: Context, rid: Var<Option<string>>, priv: seq<Entry>,
                                 before: seq<seq<string>>, after: seq<seq<string>>)
    ensures var o := Execute(w, DhcpPart(ctx, rid, priv, Some(before + [[]] + after)) + Cleanup(ctx));
      o.halted.Some? && o.world.table == w.table
  {
    var configs := before + [[]] + after;
    var steps := DhcpPart(ctx, rid, priv, Some(configs)) + Cleanup(ctx);
    DhcpStepsSplit(ctx, rid, priv, before, [[]] + after);
    assert configs == before + ([[]] + after);
    assert DhcpSteps(ctx, rid, priv, [[]] + after) == [Halt(IndexError)] + DhcpSteps(ctx, rid, priv, after) by {
      assert ([[]] + after)[1..] == after;
    }
    var pre := DhcpSteps(ctx, rid, priv, before);
    var tail := [Halt(IndexError)] + DhcpSteps(ctx, rid, priv, after) + Cleanup(ctx);
    assert steps == pre + tail;
    DhcpStepsNoSnapshot(ctx, rid, priv, before);
    ExecuteAppend(w, pre, tail);
    ExecuteKeepsTable(w, pre);
    var o := Execute(w, pre);
    if o.halted.None? {
      assert tail[0] == Halt(IndexError);
      assert Execute(o.world, tail) == Outcome(o.world, Some(IndexError));
    }
  }

  lemma {:induction false} DhcpStepsSplit(ctx: Context, rid: Var<Option<string>>, priv: seq<Entry>,
                                          a: seq<seq<string>>, b: seq<seq<string>>)
    ensures DhcpSteps(ctx, rid, priv, a + b) == DhcpSteps(ctx, rid, priv, a) + DhcpSteps(ctx, rid, priv, b)
  {
    if a == [] {
      assert a + b == b;
    } else {
      assert (a + b)[0] == a[0] && (a + b)[1..] == a[1..] + b;
      DhcpStepsSplit(ctx, rid, priv, a[1..], b);
    }
  }

  lemma ConfigLoopStep(ctx: Context, rid: Var<Option<string>>, priv: seq<Entry>, configs: seq<seq<string>>, i: int)
    requires 0 <= i < |configs|
    ensures DhcpSteps(ctx, rid, priv, configs[i..]) ==
      ConfigSteps(ctx, rid, priv, configs[i]) + DhcpSteps(ctx, rid, priv, configs[i + 1..])
  {
    assert configs[i..][1..] == configs[i + 1..];
  }

  // ---- Destroy mirrors create ----

  /** A destroy's write block: the create's writes, each turned into a delete. */
  predicate MirrorWrites(c: seq<Write>, d: seq<Write>)
  {
    |c| == |d| && forall j :: 0 <= j < |c| ==> c[j].action == Upsert && d[j] == c[j].(action := Delete)
  }

  /** A destroy's step: the create's zone lookups without the association, its writes as deletes, its raises unchanged. */
  predicate MirrorStep(c: Step, d: Step)
  {
    match c
    case Properties(z, v, a) => a == AssociateOrExit && d == Properties(z, v, NoAssociate)
    case Try(ws) => d.Try? && MirrorWrites(ws, d.writes)
    case _ => d == c
  }

  predicate Mirror(c: seq<Step>, d: seq<Step>)
  {
    |c| == |d| && forall i :: 0 <= i < |c| ==> MirrorStep(c[i], d[i])
  }

  lemma MirrorAppend(a: seq<Step>, b: seq<Step>, c: seq<Step>, d: seq<Step>)
    requires Mirror(a, c) && Mirror(b, d)
    ensures Mirror(a + b, c + d)
  {
    forall i | 0 <= i < |a + b|
      ensures MirrorStep((a + b)[i], (c + d)[i])
    {
      if i < |a| {
        assert (a + b)[i] == a[i] && (c + d)[i] == c[i];
      } else {
        assert (a + b)[i] == b[i - |a|] && (c + d)[i] == d[i - |a|];
      }
    }
  }

  /** The same event context with the state turned to destroy. */
  function Destroyed(ctx: Context): Context
  {
    ctx.(state := Destroy)
  }

  lemma PrivateStepsMirror(ctx: Context, rid: Var<Option<string>>, e: Entry)
    requires ctx.state == Create
    ensures Mirror(PrivateSteps(ctx, rid, e), PrivateSteps(Destroyed(ctx), rid, e))
  {
    var c := PrivateSteps(ctx, rid, e);
    var d := PrivateSteps(Destroyed(ctx), rid, e);
    assert MirrorStep(c[0], d[0]);
    assert MirrorWrites(c[1].writes, d[1].writes);
  }

  lemma TagStepsMirror(ctx: Context, rid: Var<Option<string>>, priv: seq<Entry>, pub: seq<Entry>, tag: Tag)
    requires ctx.state == Create
    ensures Mirror(TagSteps(ctx, rid, priv, pub, tag), TagSteps(Destroyed(ctx), rid, priv, pub, tag))
  {
    var dtx := Destroyed(ctx);
    if tag.key.Some? {
      var k := tag.key.value;
      var zc := if KeyNames(k, "ZONE") then ZoneTagSteps(ctx, rid, priv, pub, tag.value) else [];
      var zd := if KeyNames(k, "ZONE") then ZoneTagSteps(dtx, rid, priv, pub, tag.value) else [];
      var cc := if KeyNames(k, "CNAME") then CnameTagSteps(ctx, priv, pub, tag.value) else [];
      var cd := if KeyNames(k, "CNAME") then CnameTagSteps(dtx, priv, pub, tag.value) else [];
      ValueMirror(ctx, rid, priv, pub, tag.value);
      MirrorAppend(zc, cc, zd, cd);
    }
  }

  lemma ValueMirror(ctx: Context, rid: Var<Option<string>>, priv: seq<Entry>, pub: seq<Entry>, value: Option<string>)
    requires ctx.state == Create
    ensures Mirror(ZoneTagSteps(ctx, rid, priv, pub, value), ZoneTagSteps(Destroyed(ctx), rid, priv, pub, value))
    ensures Mirror(CnameTagSteps(ctx, priv, pub, value), CnameTagSteps(Destroyed(ctx), priv, pub, value))
  {
    ValidatedValue(ctx, rid, priv, pub, value);
    ValidatedValue(Destroyed(ctx), rid, priv, pub, value);
    if IsValidHostname(value) == Ok(true) {
      ZoneRuleMirror(ctx, rid, priv, pub, value.value);
      CnameRuleMirror(ctx, priv, pub, value.value);
    }
  }

  lemma ZoneRuleMirror(ctx: Context, rid: Var<Option<string>>, priv: seq<Entry>, pub: seq<Entry>, v: string)
    requires ctx.state == Create
    ensures Mirror(ZoneRule(ctx, rid, priv, pub, v), ZoneRule(Destroyed(ctx), rid, priv, pub, v))
  {
    var p := FirstKeyed(priv, NameKey(v));
    var u := FirstKeyed(pub, NameKey(v));
    if p.Some? && ctx.privateHost != "" {
      PrivateStepsMirror(ctx, rid, p.value);
    } else if u.Some? && ctx.publicHost != "" {
      assert MirrorWrites(PublicStep(ctx, u.value).writes, PublicStep(Destroyed(ctx), u.value).writes);
    }
  }

  lemma PrivateCnameMirror(ctx: Context, priv: seq<Entry>, host: string, suffix: string)
    requires ctx.state == Create
    ensures Mirror(PrivateCname(ctx, priv, host, suffix), PrivateCname(Destroyed(ctx), priv, host, suffix))
  {
    var pc := PrivateCname(ctx, priv, host, suffix);
    var pd := PrivateCname(Destroyed(ctx), priv, host, suffix);
    if pc != [] {
      assert MirrorWrites(pc[0].writes, pd[0].writes);
    }
  }

  lemma PublicCnamesMirror(ctx: Context, host: string, zs: seq<Entry>)
    requires ctx.state == Create
    ensures Mirror(PublicCnames(ctx, host, zs), PublicCnames(Destroyed(ctx), host, zs))
  {
    var uc := PublicCnames(ctx, host, zs);
    var ud := PublicCnames(Destroyed(ctx), host, zs);
    forall i | 0 <= i < |uc|
      ensures MirrorStep(uc[i], ud[i])
    {
      assert MirrorWrites(uc[i].writes, ud[i].writes);
    }
  }

  lemma CnameRuleMirror(ctx: Context, priv: seq<Entry>, pub: seq<Entry>, v: string)
    requires ctx.state == Create
    ensures Mirror(CnameRule(ctx, priv, pub, v), CnameRule(Destroyed(ctx), priv, pub, v))
  {
    if CnameSplit(NameKey(v)).Ok? {
      CnameRuleSplitMirror(ctx, priv, pub, v);
    } else {
      CnameRuleRaisesMirror(ctx, priv, pub, v);
    }
  }

  /** A raise mirrors itself. */
  lemma HaltMirror(e: Exc)
    ensures Mirror([Halt(e)], [Halt(e)])
  {
  }

  lemma CnameRuleRaisesMirror(ctx: Context, priv: seq<Entry>, pub: seq<Entry>, v: string)
    requires CnameSplit(NameKey(v)).Raise?
    ensures Mirror(CnameRule(ctx, priv, pub, v), CnameRule(Destroyed(ctx), priv, pub, v))
  {
    CnameRuleRaises(ctx, priv, pub, v);
    CnameRuleRaises(Destroyed(ctx), priv, pub, v);
    HaltMirror(IndexError);
  }

  lemma CnameRuleSplitMirror(ctx: Context, priv: seq<Entry>, pub: seq<Entry>, v: string)
    requires ctx.state == Create && CnameSplit(NameKey(v)).Ok?
    ensures Mirror(CnameRule(ctx, priv, pub, v), CnameRule(Destroyed(ctx), priv, pub, v))
  {
    var dtx := Destroyed(ctx);
    var cname := NameKey(v);
    var host := CnameSplit(cname).value.0;
    var suffix := CnameSplit(cname).value.1;
    var zs := SuffixZones(pub, cname);
    PrivateCnameMirror(ctx, priv, host, suffix);
    PublicCnamesMirror(ctx, host, zs);
    CnameRuleUnfold(ctx, priv, pub, v);
    CnameRuleUnfold(dtx, priv, pub, v);
    MirrorAppend(PrivateCname(ctx, priv, host, suffix), PublicCnames(ctx, host, zs),
      PrivateCname(dtx, priv, host, suffix), PublicCnames(dtx, host, zs));
  }

  /**
   * A destroy of the same asset, against the same zones, issues exactly the create's
   * tag steps with every write turned into a delete and no association attempted.
   */
  lemma {:induction false} AllTagStepsMirror(ctx: Context, rid: Var<Option<string>>, priv: seq<Entry>, pub: seq<Entry>, tags: seq<Tag>)
    requires ctx.state == Create
    ensures Mirror(AllTagSteps(ctx, rid, priv, pub, tags), AllTagSteps(Destroyed(ctx), rid, priv, pub, tags))
    decreases |tags|
  {
    if tags != [] {
      AllTagStepsMirror(ctx, rid, priv, pub, tags[1..]);
      TagStepsMirror(ctx, rid, priv, pub, tags[0]);
      MirrorAppend(TagSteps(ctx, rid, priv, pub, tags[0]), AllTagSteps(ctx, rid, priv, pub, tags[1..]),
        TagSteps(Destroyed(ctx), rid, priv, pub, tags[0]), AllTagSteps(Destroyed(ctx), rid, priv, pub, tags[1..]));
    }
  }

  /** The same holds for the DHCP steps. */
  lemma {:induction false} DhcpStepsMirror(ctx: Context, rid: Var<Option<string>>, priv: seq<Entry>, configs: seq<seq<string>>)
    requires ctx.state == Create
    ensures Mirror(DhcpSteps(ctx, rid, priv, configs), DhcpSteps(Destroyed(ctx), rid, priv, configs))
    decreases |configs|
  {
    if configs != [] {
      var c := configs[0];
      DhcpStepsMirror(ctx, rid, priv, configs[1..]);
      if c != [] && FirstKeyed(priv, NameKey(c[0])).Some? {
        PrivateStepsMirror(ctx, rid, FirstKeyed(priv, NameKey(c[0])).value);
      }
      MirrorAppend(ConfigSteps(ctx, rid, priv, c), DhcpSteps(ctx, rid, priv, configs[1..]),
        ConfigSteps(Destroyed(ctx), rid, priv, c), DhcpSteps(Destroyed(ctx), rid, priv, configs[1..]));
    }
  }

  // ---- Snapshots ----

  predicate NoSnapshot(steps: seq<Step>)
  {
    forall i :: 0 <= i < |steps| ==> !steps[i].DeleteSnapshot?
  }

  lemma NoSnapshotAppend(a: seq<Step>, b: seq<Step>)
    requires NoSnapshot(a) && NoSnapshot(b)
    ensures NoSnapshot(a + b)
  {
    forall i | 0 <= i < |a + b|
      ensures !(a + b)[i].DeleteSnapshot?
    {
      if i >= |a| {
        assert (a + b)[i] == b[i - |a|];
      }
    }
  }

  lemma CnameRuleUnfold(ctx: Context, priv: seq<Entry>, pub: seq<Entry>, v: string)
    requires CnameSplit(NameKey(v)).Ok?
    ensures CnameRule(ctx, priv, pub, v) ==
      PrivateCname(ctx, priv, CnameSplit(NameKey(v)).value.0, CnameSplit(NameKey(v)).value.1) +
      PublicCnames(ctx, CnameSplit(NameKey(v)).value.0, SuffixZones(pub, NameKey(v)))
  {
  }

  /** A value with an empty suffix raises IndexError before any write. */
  lemma CnameRuleRaises(ctx: Context, priv: seq<Entry>, pub: seq<Entry>, v: string)
    requires CnameSplit(NameKey(v)).Raise?
    ensures CnameRule(ctx, priv, pub, v) == [Halt(IndexError)]
  {
  }

  lemma CnameRuleNoSnapshot(ctx: Context, priv: seq<Entry>, pub: seq<Entry>, v: string)
    ensures NoSnapshot(CnameRule(ctx, priv, pub, v))
  {
    if CnameSplit(NameKey(v)).Ok? {
      CnameRuleSplitNoSnapshot(ctx, priv, pub, v);
    } else {
      CnameRuleRaises(ctx, priv, pub, v);
      HaltNoSnapshot(IndexError);
    }
  }

  lemma CnameRuleSplitNoSnapshot(ctx: Context, priv: seq<Entry>, pub: seq<Entry>, v: string)
    requires CnameSplit(NameKey(v)).Ok?
    ensures NoSnapshot(CnameRule(ctx, priv, pub, v))
  {
    var cname := NameKey(v);
    var host := CnameSplit(cname).value.0;
    var ps := PrivateCname(ctx, priv, host, CnameSplit(cname).value.1);
    var us := PublicCnames(ctx, host, SuffixZones(pub, cname));
    CnameRuleUnfold(ctx, priv, pub, v);
    assert NoSnapshot(ps);
    assert NoSnapshot(us);
    NoSnapshotAppend(ps, us);
  }

  lemma HaltNoSnapshot(e: Exc)
    ensures NoSnapshot([Halt(e)])
  {
  }

  lemma ZoneRuleNoSnapshot(ctx: Context, rid: Var<Option<string>>, priv: seq<Entry>, pub: seq<Entry>, v: string)
    ensures NoSnapshot(ZoneRule(ctx, rid, priv, pub, v))
  {
  }

  lemma TagStepsNoSnapshot(ctx: Context, rid: Var<Option<string>>, priv: seq<Entry>, pub: seq<Entry>, tag: Tag)
    ensures NoSnapshot(TagSteps(ctx, rid, priv, pub, tag))
  {
    if tag.key.Some? {
      var k := tag.key.value;
      var z := if KeyNames(k, "ZONE") then ZoneTagSteps(ctx, rid, priv, pub, tag.value) else [];
      var c := if KeyNames(k, "CNAME") then CnameTagSteps(ctx, priv, pub, tag.value) else [];
      ValidatedValue(ctx, rid, priv, pub, tag.value);
      if IsValidHostname(tag.value) == Ok(true) {
        ZoneRuleNoSnapshot(ctx, rid, priv, pub, tag.value.value);
        CnameRuleNoSnapshot(ctx, priv, pub, tag.value.value);
      }
      assert NoSnapshot(z) && NoSnapshot(c);
      NoSnapshotAppend(z, c);
    }
  }

  lemma {:induction false} AllTagStepsNoSnapshot(ctx: Context, rid: Var<Option<string>>, priv: seq<Entry>, pub: seq<Entry>, tags: seq<Tag>)
    ensures NoSnapshot(AllTagSteps(ctx, rid, priv, pub, tags))
    decreases |tags|
  {
    if tags != [] {
      AllTagStepsNoSnapshot(ctx, rid, priv, pub, tags[1..]);
      TagStepsNoSnapshot(ctx, rid, priv, pub, tags[0]);
      NoSnapshotAppend(TagSteps(ctx, rid, priv, pub, tags[0]), AllTagSteps(ctx, rid, priv, pub, tags[1..]));
    }
  }

  lemma {:induction false} DhcpStepsNoSnapshot(ctx: Context, rid: Var<Option<string>>, priv: seq<Entry>, configs: seq<seq<string>>)
    ensures NoSnapshot(DhcpSteps(ctx, rid, priv, configs))
    decreases |configs|
  {
    if configs != [] {
      DhcpStepsNoSnapshot(ctx, rid, priv, configs[1..]);
      NoSnapshotAppend(ConfigSteps(ctx, rid, priv, configs[0]), DhcpSteps(ctx, rid, priv, configs[1..]));
    }
  }

  /** Everything a plan does before its cleanup leaves the snapshot where it is. */
  lemma PlanBodyNoSnapshot(ctx: Context, tags: seq<Tag>, zones: seq<Zone>, dhcp: Option<seq<seq<string>>>, newId: string)
    requires Collection(zones, true).Ok? && Collection(zones, false).Ok?
    ensures var priv := Collection(zones, true).value;
      var pub := Collection(zones, false).value;
      var (rsteps, rid) := ReverseSteps(ctx, zones, newId);
      var dsteps := DhcpPart(ctx, rid, priv, dhcp);
      Plan(ctx, tags, zones, dhcp, newId) == rsteps + AllTagSteps(ctx, rid, priv, pub, tags) + dsteps + Cleanup(ctx) &&
      NoSnapshot(rsteps + AllTagSteps(ctx, rid, priv, pub, tags) + dsteps)
  {
    var priv := Collection(zones, true).value;
    var pub := Collection(zones, false).value;
    var (rsteps, rid) := ReverseSteps(ctx, zones, newId);
    var dsteps := DhcpPart(ctx, rid, priv, dhcp);
    AllTagStepsNoSnapshot(ctx, rid, priv, pub, tags);
    if dhcp.Some? {
      DhcpStepsNoSnapshot(ctx, rid, priv, dhcp.value);
    }
    NoSnapshotAppend(rsteps, AllTagSteps(ctx, rid, priv, pub, tags));
    NoSnapshotAppend(rsteps + AllTagSteps(ctx, rid, priv, pub, tags), dsteps);
  }

  /** A create never removes a snapshot: the table after the run is the table before it. */
  lemma CreateKeepsSnapshots(w: World, ctx: Context, tags: seq<Tag>, zones: seq<Zone>, dhcp: Option<seq<seq<string>>>, newId: string)
    requires ctx.state == Create
    ensures Execute(w, Plan(ctx, tags, zones, dhcp, newId)).world.table == w.table
  {
    if Collection(zones, true).Ok? && Collection(zones, false).Ok? {
      PlanBodyNoSnapshot(ctx, tags, zones, dhcp, newId);
    }
    ExecuteKeepsTable(w, Plan(ctx, tags, zones, dhcp, newId));
  }

  /** A destroy's plan removes the asset's snapshot as its last step and nowhere before it. */
  lemma DestroyEndsWithCleanup(ctx: Context, tags: seq<Tag>, zones: seq<Zone>, dhcp: Option<seq<seq<string>>>, newId: string)
    requires ctx.state == Destroy
    requires Collection(zones, true).Ok? && Collection(zones, false).Ok?
    ensures var p := Plan(ctx, tags, zones, dhcp, newId);
      p != [] && p[|p| - 1] == DeleteSnapshot(ctx.assetId) && NoSnapshot(p[..|p| - 1])
  {
    PlanBodyNoSnapshot(ctx, tags, zones, dhcp, newId);
    var p := Plan(ctx, tags, zones, dhcp, newId);
    assert p[..|p| - 1] == p[..|p| - 1];
  }

  /** A destroy that runs its whole plan without an exception leaves no snapshot of the asset. */
  lemma DestroyPlanRemovesSnapshot(w: World, ctx: Context, tags: seq<Tag>, zones: seq<Zone>, dhcp: Option<seq<seq<string>>>, newId: string)
    requires ctx.state == Destroy
    ensures var o := Execute(w, Plan(ctx, tags, zones, dhcp, newId));
      o.halted.None? ==> ctx.assetId !in o.world.table
  {
    var p := Plan(ctx, tags, zones, dhcp, newId);
    if Collection(zones, true).Ok? && Collection(zones, false).Ok? {
      DestroyEndsWithCleanup(ctx, tags, zones, dhcp, newId);
      var front := p[..|p| - 1];
      assert p == front + [DeleteSnapshot(ctx.assetId)];
      ExecuteAppend(w, front, [DeleteSnapshot(ctx.assetId)]);
    }
  }

  // ---- Writes that cannot succeed ----

  /** Inside the private block a failed A write skips the PTR write: the block then changes nothing. */
  lemma FailedAddressSkipsPointer(s: DnsState, ctx: Context, rid: Var<Option<string>>, e: Entry)
    requires ApplyWrite(s, PrivateSteps(ctx, rid, e)[1].writes[0]).Raise?
    ensures RunGroup(s, PrivateSteps(ctx, rid, e)[1].writes) == s
  {
    var ws := PrivateSteps(ctx, rid, e)[1].writes;
    assert ws == [ws[0]] + ws[1..];
    RunGroupCons(s, ws[0], ws[1..]);
  }

  /**
   * A load balancer binds neither address nor a reversed address, so every ZONE tag
   * write it reaches raises NameError inside its block and no record changes.
   */
  lemma LoadBalancerZoneTagWritesNothing(s: DnsState, ctx: Context, rid: Var<Option<string>>, priv: seq<Entry>, pub: seq<Entry>, v: string)
    requires ctx.privateIp.Unbound? && ctx.publicIp.Unbound? && ctx.reversedIp.Unbound?
    ensures forall st :: st in ZoneRule(ctx, rid, priv, pub, v) && st.Try? ==>
      (forall w :: w in st.writes ==> Prepare(w) == Raise(NameError)) && RunGroup(s, st.writes) == s
  {
    forall st | st in ZoneRule(ctx, rid, priv, pub, v) && st.Try?
      ensures (forall w :: w in st.writes ==> Prepare(w) == Raise(NameError)) && RunGroup(s, st.writes) == s
    {
      assert st.writes == [st.writes[0]] + st.writes[1..];
      RunGroupCons(s, st.writes[0], st.writes[1..]);
    }
  }

  /** An asset read from a load balancer has the unbound locals the previous lemma needs. */
  lemma LoadBalancerContext(id: string, state: State, a: Asset, masks: map<string, int>)
    requires a.extras.kind == Elb && a.extras.vpcId.Some?
    ensures ReadAsset(id, state, a, masks).Ok?
    ensures var ctx := ReadAsset(id, state, a, masks).value;
      ctx.privateIp.Unbound? && ctx.publicIp.Unbound? && ctx.reversedIp.Unbound? && ctx.reverseZone == ""
  {
  }

  /**
   * The private zone steps of a created instance whose VPC the zone does not yet
   * list: the VPC is associated, then the A record of the host and the PTR record of
   * the reversed address are upserted, and nothing else changes, when Route 53
   * accepts both record sets.
   */
  lemma PrivateZoneCreate(w: World, ctx: Context, rid: string, e: Entry)
    requires ctx.state.Create? && ctx.privateHost != ""
    requires ctx.privateIp.Bound? && ctx.privateDnsName.Bound? && ctx.reversedIp.Bound? && ctx.reversedIp.val != ""
    requires Associate(w.dns, e.id, ctx.vpcId).Ok?
    requires ZoneIndex(w.dns.zones, rid) != -1
    requires RecordKey(e.id, RecordName(ctx.privateHost, e.name).value, A) !in w.dns.refusedRecords
    requires RecordKey(rid, RecordName(ctx.reversedIp.val, "in-addr.arpa").value, PTR) !in w.dns.refusedRecords
    ensures var o := Execute(w, PrivateSteps(ctx, Bound(Some(rid)), e));
      var a := RecordSet(RecordName(ctx.privateHost, e.name).value, A, Ttl, [ctx.privateIp.val]);
      var ptr := RecordSet(RecordName(ctx.reversedIp.val, "in-addr.arpa").value, PTR, Ttl, [ctx.privateDnsName.val]);
      o.halted.None? && o.world.table == w.table &&
      ZoneVpcs(o.world.dns, e.id) == Ok(ZoneVpcs(w.dns, e.id).value + [ctx.vpcId]) &&
      o.world.dns.records == w.dns.records[KeyOf(e.id, a) := a][KeyOf(rid, ptr) := ptr]
  {
    var steps := PrivateSteps(ctx, Bound(Some(rid)), e);
    var s1 := Associate(w.dns, e.id, ctx.vpcId).value;
    PrivateStepsAssociate(w, ctx, Bound(Some(rid)), e);
    AssociateKeepsIndex(w.dns, e.id, ctx.vpcId, rid);
    UpsertPair(s1, steps[1].writes[0], steps[1].writes[1], e.id, rid);
  }

  /** With the VPC missing from the zone, the lookup step associates it and the record block runs on the result. */
  lemma PrivateStepsAssociate(w: World, ctx: Context, rid: Var<Option<string>>, e: Entry)
    requires ctx.state.Create? && Associate(w.dns, e.id, ctx.vpcId).Ok?
    ensures var steps := PrivateSteps(ctx, rid, e);
      var s1 := Associate(w.dns, e.id, ctx.vpcId).value;
      Execute(w, steps) == Outcome(w.(dns := RunGroup(s1, steps[1].writes)), None)
  {
    var steps := PrivateSteps(ctx, rid, e);
    var s1 := Associate(w.dns, e.id, ctx.vpcId).value;
    var w1 := w.(dns := s1);
    assert RunProperties(w.dns, Some(e.id), ctx.vpcId, AssocFor(ctx.state)) == (s1, None);
    assert ExecStep(w, steps[0]) == Outcome(w1, None);
    assert Execute(w, steps) == Execute(w1, steps[1..]);
    assert steps[1..] == [steps[1]] && steps[1..][1..] == [];
    assert Execute(w1, steps[1..]) == ExecStep(w1, steps[1]);
  }

  /**
   * The running example: host "host" at 10.0.1.55, with the private zone
   * "corp.internal." and the reverse zone already listed. The VPC is associated and the
   * records "host.corp.internal." and "55.1.0.10.in-addr.arpa" are written.
   */
  lemma CorpInternalExample(w: World, ctx: Context, rid: string, zid: string)
    requires ctx.state.Create? && ctx.privateHost == "host" && ctx.privateIp == Bound("10.0.1.55")
    requires ctx.privateDnsName == Bound("host.corp.internal") && ctx.reversedIp == Bound("55.1.0.10.")
    requires Associate(w.dns, zid, ctx.vpcId).Ok?
    requires ZoneIndex(w.dns.zones, rid) != -1
    requires RecordKey(zid, "host.corp.internal.", A) !in w.dns.refusedRecords
    requires RecordKey(rid, "55.1.0.10.in-addr.arpa", PTR) !in w.dns.refusedRecords
    ensures var o := Execute(w, PrivateSteps(ctx, Bound(Some(rid)), Entry("corp.internal.", zid)));
      o.halted.None? && ZoneVpcs(o.world.dns, zid) == Ok(ZoneVpcs(w.dns, zid).value + [ctx.vpcId]) &&
      o.world.dns.records == w.dns.records
        [RecordKey(zid, "host.corp.internal.", A) := RecordSet("host.corp.internal.", A, 60, ["10.0.1.55"])]
        [RecordKey(rid, "55.1.0.10.in-addr.arpa", PTR) := RecordSet("55.1.0.10.in-addr.arpa", PTR, 60, ["host.corp.internal"])]
  {
    ExampleRecordNames();
    PrivateZoneCreate(w, ctx, rid, Entry("corp.internal.", zid));
    ExampleRecordNames();
  }
}
