/**
 * `lambda_handler` as a whole: the pure `Run`, which loads the asset, reads it, plans
 * the steps and executes them, and the `Lambda` class, which holds the handler's
 * globals and its Route 53 client and does the same work in place, loop by loop.
 */
module Handler {
  import opened Wrappers
  import opened Assets
  import opened Zones
  import opened Provider
  import opened Execution
  import opened Events
  import opened Planner
  import opened Records

  /**
   * What the handler reads from services it never changes: the describe calls, the
   * mask of every subnet's CIDR block, the DHCP option values of every VPC that has an
   * option set, and the fresh id Route 53 gives a new reverse lookup zone.
   */
  datatype Env = Env(
    describe: Describe,
    masks: map<string, int>,
    dhcp: map<string, seq<seq<string>>>,
    newZoneId: string)

  /** The zone names `get_dhcp_configurations` returns: each value of each option with '.' appended. */
  function DhcpNames(raw: seq<seq<string>>): seq<seq<string>>
  {
    seq(|raw|, i requires 0 <= i < |raw| => seq(|raw[i]|, j requires 0 <= j < |raw[i]| => raw[i][j] + "."))
  }

  /** Every name ends in '.' and gives back its value when that dot is dropped. */
  lemma DhcpNamesDotted(raw: seq<seq<string>>, i: int, j: int)
    requires 0 <= i < |raw| && 0 <= j < |raw[i]|
    ensures |DhcpNames(raw)| == |raw| && |DhcpNames(raw)[i]| == |raw[i]|
    ensures var n := DhcpNames(raw)[i][j]; n != "" && n[|n| - 1] == '.' && n[..|n| - 1] == raw[i][j]
  {
  }

  /** The option set of a VPC, or None when it has none (the handler then exits). */
  function DhcpConfigurations(env: Env, vpcId: string): Option<seq<seq<string>>>
  {
    if vpcId in env.dhcp then Some(DhcpNames(env.dhcp[vpcId])) else None
  }

  /** One invocation of the handler on `ev`, from world `w`. */
  function Run(ev: Event, env: Env, w: World): Outcome
  {
    match Load(ev, env.describe, w.table)
    case None => Outcome(w, None)
    case Some((t, r)) =>
      var w1 := w.(table := t);
      if r.Raise? then Outcome(w1, Some(r.exc))
      else match ReadAsset(r.value.assetId, r.value.state, r.value.asset, env.masks)
        case Raise(e) => Outcome(w1, Some(e))
        case Ok(ctx) =>
          Execute(w1, Plan(ctx, r.value.asset.tags, w.dns.zones, DhcpConfigurations(env, ctx.vpcId), env.newZoneId))
  }

  /** An event from any other source is ignored: nothing changes and nothing is raised. */
  lemma RunIgnoresOtherSources(source: string, env: Env, w: World)
    ensures Run(OtherSource(source), env, w) == Outcome(w, None)
  {
  }

  /**
   * A destroy of an instance whose snapshot is missing raises KeyError before any
   * Route 53 call: the table and the records are as they were.
   */
  lemma DestroyWithoutSnapshot(id: string, state: string, region: string, env: Env, w: World)
    requires state != "running" && id !in w.table
    ensures Run(Ec2StateChange(id, state, region), env, w) == Outcome(w, Some(KeyError))
  {
    assert w.(table := w.table) == w;
  }

  /**
   * A create stores its pruned snapshot while loading, and the rest of the run keeps
   * it: the table at the end is the one loading left, whatever happens to Route 53.
   */
  lemma CreateKeepsStoredSnapshot(ev: Event, env: Env, w: World)
    requires Load(ev, env.describe, w.table).Some?
    requires var r := Load(ev, env.describe, w.table).value.1; r.Ok? && r.value.state.Create?
    ensures Run(ev, env, w).world.table == Load(ev, env.describe, w.table).value.0
  {
    var (t, r) := Load(ev, env.describe, w.table).value;
    var w1 := w.(table := t);
    var read := ReadAsset(r.value.assetId, r.value.state, r.value.asset, env.masks);
    if read.Ok? {
      var ctx := read.value;
      CreateKeepsSnapshots(w1, ctx, r.value.asset.tags, w.dns.zones, DhcpConfigurations(env, ctx.vpcId), env.newZoneId);
    }
  }

  /**
   * A destroy that runs to the end without an exception removes the snapshot of the
   * asset it loaded, after every record it deleted.
   */
  lemma DestroyRemovesSnapshot(ev: Event, env: Env, w: World)
    requires Load(ev, env.describe, w.table).Some?
    requires var r := Load(ev, env.describe, w.table).value.1; r.Ok? && r.value.state.Destroy?
    ensures Run(ev, env, w).halted.None? ==>
      Load(ev, env.describe, w.table).value.1.value.assetId !in Run(ev, env, w).world.table
  {
    var (t, r) := Load(ev, env.describe, w.table).value;
    var read := ReadAsset(r.value.assetId, r.value.state, r.value.asset, env.masks);
    if read.Ok? {
      var ctx := read.value;
      DestroyPlanRemovesSnapshot(w.(table := t), ctx, r.value.asset.tags, w.dns.zones, DhcpConfigurations(env, ctx.vpcId), env.newZoneId);
    }
  }

  /**
   * A create whose asset has nothing to prune, then a destroy of the same asset: the
   * destroy loads the stored snapshot and reads the locals the create read, with the
   * state turned to destroy.
   */
  lemma CreateThenDestroyReadsSame(table: Table, id: string, a: Asset, masks: map<string, int>)
    requires PutAsset(table, id, a).1.Ok? && Unpruned(a)
    ensures var f := FetchAsset(PutAsset(table, id, a).0, id);
      f.Ok? && f.value.state == Destroy &&
      (ReadAsset(id, Create, a, masks).Ok? ==>
        ReadAsset(f.value.assetId, f.value.state, f.value.asset, masks) == Ok(Destroyed(ReadAsset(id, Create, a, masks).value)))
  {
    PutThenFetchUnpruned(table, id, a);
    ReadAssetState(id, a, masks);
  }

  /** The handler and its globals, with the Route 53 client it writes through. */
  class Lambda {
    const dns: DnsProvider
    var table: map<string, Asset>
    var assetId: string
    var eventState: Option<State>
    var asset: Option<Asset>

    /** The state the handler changes: Route 53 and the snapshot table. */
    function Now(): World
      reads this, dns
    {
      World(dns.State(), table)
    }

    constructor (client: DnsProvider, snapshots: map<string, Asset>)
      ensures dns == client && table == snapshots
      ensures assetId == "" && eventState.None? && asset.None?
    {
      dns := client;
      table := snapshots;
      assetId := "";
      eventState := None;
      asset := None;
    }

    /** Keeps what a `set_*_vars` call left: its table and, when it succeeded, the asset globals. */
    method Adopt(r: (Table, Res<Loaded>)) returns (err: Option<Exc>)
      modifies this
      ensures table == r.0
      ensures r.1.Ok? ==> err.None? && assetId == r.1.value.assetId && eventState == Some(r.1.value.state) && asset == Some(r.1.value.asset)
      ensures r.1.Raise? ==> err == Some(r.1.exc) && assetId == old(assetId) && eventState == old(eventState) && asset == old(asset)
    {
      table := r.0;
      if r.1.Ok? {
        assetId := r.1.value.assetId;
        eventState := Some(r.1.value.state);
        asset := Some(r.1.value.asset);
        err := None;
      } else {
        err := Some(r.1.exc);
      }
    }

    method SetInstanceVars(instanceId: string, state: string, region: string, d: Describe) returns (err: Option<Exc>)
      modifies this
      ensures var r := Events.SetInstanceVars(instanceId, state, region, d, old(table));
        table == r.0 && (r.1.Ok? ==> err.None? && asset == Some(r.1.value.asset) && eventState == Some(r.1.value.state) && assetId == r.1.value.assetId) &&
        (r.1.Raise? ==> err == Some(r.1.exc))
    {
      err := Adopt(Events.SetInstanceVars(instanceId, state, region, d, table));
    }

    method SetLbV1Vars(eventName: string, awsRegion: string, lbName: Option<string>, d: Describe) returns (err: Option<Exc>)
      modifies this
      ensures var r := Events.SetLbV1Vars(eventName, awsRegion, lbName, d, old(table));
        table == r.0 && (r.1.Ok? ==> err.None? && asset == Some(r.1.value.asset) && eventState == Some(r.1.value.state) && assetId == r.1.value.assetId) &&
        (r.1.Raise? ==> err == Some(r.1.exc))
    {
      err := Adopt(Events.SetLbV1Vars(eventName, awsRegion, lbName, d, table));
    }

    method SetLbV2Vars(eventName: string, awsRegion: string, responseArn: Option<string>, requestArn: Option<string>, d: Describe)
      returns (err: Option<Exc>)
      modifies this
      ensures var r := Events.SetLbV2Vars(eventName, awsRegion, responseArn, requestArn, d, old(table));
        table == r.0 && (r.1.Ok? ==> err.None? && asset == Some(r.1.value.asset) && eventState == Some(r.1.value.state) && assetId == r.1.value.assetId) &&
        (r.1.Raise? ==> err == Some(r.1.exc))
    {
      err := Adopt(Events.SetLbV2Vars(eventName, awsRegion, responseArn, requestArn, d, table));
    }

    /** One record call: its arguments are read, then its change is sent; `ok` is whether neither raised. */
    method RunWrite(w: Write) returns (ok: bool)
      modifies dns
      ensures ok <==> ApplyWrite(old(dns.State()), w).Ok?
      ensures dns.State() == if ok then ApplyWrite(old(dns.State()), w).value else old(dns.State())
    {
      var p := Prepare(w);
      if p.Raise? {
        return false;
      }
      var err := dns.ChangeResourceRecordSets(p.value.0, p.value.1);
      ok := err.None?;
    }

    /** The writes of one `try:` block; the first that raises ends the block. */
    method RunWrites(ws: seq<Write>)
      modifies dns
      ensures dns.State() == RunGroup(old(dns.State()), ws)
    {
      var i := 0;
      while i < |ws|
        invariant 0 <= i <= |ws|
        invariant RunGroup(old(dns.State()), ws) == RunGroup(dns.State(), ws[i..])
      {
        RunGroupAt(dns.State(), ws, i);
        var ok := RunWrite(ws[i]);
        if !ok {
          break;
        }
        i := i + 1;
      }
    }

    /** One step against the client and the table. */
    method Perform(step: Step) returns (halted: Option<Exc>)
      modifies this, dns
      ensures Outcome(Now(), halted) == ExecStep(old(Now()), step)
    {
      match step
      case Properties(z, vpc, assoc) =>
        if z.None? {
          halted := Some(ClientError);
        } else {
          var vpcs := dns.GetHostedZoneVpcs(z.value);
          if vpcs.Raise? {
            halted := Some(vpcs.exc);
          } else if vpc in vpcs.value || assoc == NoAssociate {
            halted := None;
          } else {
            var err := dns.AssociateVpcWithHostedZone(z.value, vpc);
            halted := if err.Some? && assoc == AssociateOrExit then Some(SystemExit) else None;
          }
        }
      case CreateReverseZone(name, vpc, id) =>
        halted := dns.CreateHostedZone(name, vpc, id);
      case Try(ws) =>
        RunWrites(ws);
        halted := None;
      case DeleteSnapshot(id) =>
        table := table - {id};
        halted := None;
      case Halt(e) =>
        halted := Some(e);
    }

    /** Steps in order until one ends the run. */
    method Steps(steps: seq<Step>) returns (halted: Option<Exc>)
      modifies this, dns
      ensures Outcome(Now(), halted) == Execute(old(Now()), steps)
    {
      var i := 0;
      halted := None;
      while i < |steps| && halted.None?
        invariant 0 <= i <= |steps|
        invariant halted.None? ==> Execute(old(Now()), steps) == Execute(Now(), steps[i..])
        invariant halted.Some? ==> Execute(old(Now()), steps) == Outcome(Now(), halted)
      {
        assert steps[i..][1..] == steps[i + 1..];
        halted := Perform(steps[i]);
        i := i + 1;
      }
    }

    /** The tag loop; a step that ends the run ends the loop. */
    method Tags(ctx: Context, rid: Var<Option<string>>, priv: seq<Entry>, pub: seq<Entry>, tags: seq<Tag>)
      returns (halted: Option<Exc>)
      modifies this, dns
      ensures Outcome(Now(), halted) == Execute(old(Now()), AllTagSteps(ctx, rid, priv, pub, tags))
    {
      var i := 0;
      halted := None;
      while i < |tags|
        invariant 0 <= i <= |tags| && halted.None?
        invariant Execute(old(Now()), AllTagSteps(ctx, rid, priv, pub, tags)) == Execute(Now(), AllTagSteps(ctx, rid, priv, pub, tags[i..]))
      {
        var next := TagSteps(ctx, rid, priv, pub, tags[i]);
        TagLoopStep(ctx, rid, priv, pub, tags, i);
        ghost var w := Now();
        halted := Steps(next);
        if halted.Some? {
          ExecuteHalted(w, next, AllTagSteps(ctx, rid, priv, pub, tags[i + 1..]));
          return;
        }
        ExecuteContinues(w, next, AllTagSteps(ctx, rid, priv, pub, tags[i + 1..]));
        i := i + 1;
      }
    }

    /** `get_dhcp_configurations`. */
    method GetDhcpConfigurations(raw: seq<seq<string>>) returns (names: seq<seq<string>>)
      ensures names == DhcpNames(raw)
    {
      names := [];
      for i := 0 to |raw|
        invariant names == DhcpNames(raw[..i])
      {
        var values := [];
        for j := 0 to |raw[i]|
          invariant values == seq(j, k requires 0 <= k < j => raw[i][k] + ".")
        {
          values := values + [raw[i][j] + "."];
        }
        names := names + [values];
        assert DhcpNames(raw[..i + 1]) == DhcpNames(raw[..i]) + [values];
      }
      assert raw[..|raw|] == raw;
    }

    /** The DHCP loop; a step that ends the run ends the loop. */
    method Dhcp(ctx: Context, rid: Var<Option<string>>, priv: seq<Entry>, configs: seq<seq<string>>)
      returns (halted: Option<Exc>)
      modifies this, dns
      ensures Outcome(Now(), halted) == Execute(old(Now()), DhcpSteps(ctx, rid, priv, configs))
    {
      var i := 0;
      halted := None;
      while i < |configs|
        invariant 0 <= i <= |configs| && halted.None?
        invariant Execute(old(Now()), DhcpSteps(ctx, rid, priv, configs)) == Execute(Now(), DhcpSteps(ctx, rid, priv, configs[i..]))
      {
        var next := ConfigSteps(ctx, rid, priv, configs[i]);
        ConfigLoopStep(ctx, rid, priv, configs, i);
        ghost var w := Now();
        halted := Steps(next);
        if halted.Some? {
          ExecuteHalted(w, next, DhcpSteps(ctx, rid, priv, configs[i + 1..]));
          return;
        }
        ExecuteContinues(w, next, DhcpSteps(ctx, rid, priv, configs[i + 1..]));
        i := i + 1;
      }
    }

    /**
     * The asset loading of `lambda_handler`: the instance reader for EC2 events; for
     * load balancer events the classic reader, and the v2 reader when that raises.
     * Returns whether the source was handled and the exception that ended loading.
     */
    method LoadAsset(ev: Event, d: Describe) returns (handled: bool, err: Option<Exc>)
      modifies this
      ensures handled <==> Load(ev, d, old(table)).Some?
      ensures !handled ==> table == old(table) && err.None?
      ensures handled ==> var r := Load(ev, d, old(table)).value;
        table == r.0 && (r.1.Raise? ==> err == Some(r.1.exc)) &&
        (r.1.Ok? ==> err.None? && assetId == r.1.value.assetId && eventState == Some(r.1.value.state) && asset == Some(r.1.value.asset))
    {
      match ev
      case OtherSource(_) =>
        handled, err := false, None;
      case Ec2StateChange(id, state, region) =>
        handled := true;
        err := SetInstanceVars(id, state, region, d);
      case LbApiCall(name, region, lbName, responseArn, requestArn) =>
        handled := true;
        err := SetLbV1Vars(name, region, lbName, d);
        if err.Some? {
          err := SetLbV2Vars(name, region, responseArn, requestArn, d);
        }
    }

    /**
     * Everything after the asset is read: the zone listing, the reverse lookup zone,
     * the tag loop, the DHCP options and the cleanup, as the plan for `ctx` says.
     */
    method Reconcile(ctx: Context, tags: seq<Tag>, env: Env) returns (halted: Option<Exc>)
      modifies this, dns
      ensures Outcome(Now(), halted) ==
        Execute(old(Now()), Plan(ctx, tags, old(dns.State()).zones, DhcpConfigurations(env, ctx.vpcId), env.newZoneId))
    {
      ghost var w1 := Now();
      var zones := dns.ListHostedZones();
      var priv := Collection(zones, true);
      var pub := Collection(zones, false);
      if priv.Raise? || pub.Raise? {
        return Some(IndexError);
      }
      var (rsteps, rid) := ReverseSteps(ctx, zones, env.newZoneId);
      var dhcp := DhcpConfigurations(env, ctx.vpcId);
      ghost var tsteps := AllTagSteps(ctx, rid, priv.value, pub.value, tags);
      ghost var dsteps := DhcpPart(ctx, rid, priv.value, dhcp);
      PlanParts(ctx, tags, zones, dhcp, env.newZoneId);

      halted := Steps(rsteps);
      if halted.Some? {
        ExecuteHalted(w1, rsteps, tsteps + (dsteps + Cleanup(ctx)));
        return;
      }
      ExecuteContinues(w1, rsteps, tsteps + (dsteps + Cleanup(ctx)));

      ghost var w2 := Now();
      halted := Tags(ctx, rid, priv.value, pub.value, tags);
      if halted.Some? {
        ExecuteHalted(w2, tsteps, dsteps + Cleanup(ctx));
        return;
      }
      ExecuteContinues(w2, tsteps, dsteps + Cleanup(ctx));

      ghost var w3 := Now();
      if ctx.vpcId !in env.dhcp {
        assert (dsteps + Cleanup(ctx))[0] == Halt(SystemExit);
        return Some(SystemExit);
      }
      var configs := GetDhcpConfigurations(env.dhcp[ctx.vpcId]);
      halted := Dhcp(ctx, rid, priv.value, configs);
      if halted.Some? {
        ExecuteHalted(w3, dsteps, Cleanup(ctx));
        return;
      }
      ExecuteContinues(w3, dsteps, Cleanup(ctx));

      if ctx.state != Create {
        assert Cleanup(ctx)[1..] == [];
        table := table - {ctx.assetId};
      }
    }

    /** `lambda_handler` on one event. */
    method Handle(ev: Event, env: Env) returns (halted: Option<Exc>)
      modifies this, dns
      ensures Outcome(Now(), halted) == Run(ev, env, old(Now()))
    {
      var handled, err := LoadAsset(ev, env.describe);
      if !handled {
        return None;
      }
      if err.Some? {
        return err;
      }
      var read := ReadAsset(assetId, eventState.value, asset.value, env.masks);
      if read.Raise? {
        return Some(read.exc);
      }
      halted := Reconcile(read.value, asset.value.tags, env);
    }
  }
}
