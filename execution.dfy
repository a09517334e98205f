/**
 * The effects `lambda_handler` has once its decisions are made, as a list of steps run
 * against Route 53 and the snapshot table: a zone lookup that may associate the VPC,
 * the creation of the reverse lookup zone, a `try:` block of record writes (a raise
 * ends the block and is swallowed), the removal of the snapshot, and an uncaught
 * exception or `sys.exit()` that ends the invocation.
 */
module Execution {
  import opened Wrappers
  import opened Records
  import opened Provider
  import opened Assets
  import opened Zones

  /** A Python local: never assigned (reading it raises NameError), or holding a value. */
  datatype Var<T> = Unbound | Bound(val: T)

  /** One `create_resource_record` or `delete_resource_record` call, with its arguments. */
  datatype Write = Write(
    action: Action,
    rtype: RType,
    zoneId: Var<Option<string>>,
    host: Var<string>,
    zoneName: string,
    value: Var<string>)

  /** What to do when the VPC is missing from the zone's VPC list. */
  datatype Assoc = NoAssociate | AssociateOrIgnore | AssociateOrExit

  datatype Step =
    | Properties(zoneId: Option<string>, vpc: string, assoc: Assoc)  // `get_hosted_zone_properties`, then the association check
    | CreateReverseZone(name: string, vpc: string, newId: string)    // `create_reverse_lookup_zone`
    | Try(writes: seq<Write>)                                        // record writes inside one `try:`
    | DeleteSnapshot(assetId: string)                                // `table.delete_item`
    | Halt(exc: Exc)                                                 // a raise nothing catches

  /** Route 53 and the DynamoDB table of asset snapshots. */
  datatype World = World(dns: DnsState, table: map<string, Asset>)

  /** The world after a run, and the exception that ended it early, if any. */
  datatype Outcome = Outcome(world: World, halted: Option<Exc>)

  /**
   * The change batch a write sends and the zone it goes to. The arguments are read
   * first (NameError), then `host_name[-1]` (IndexError), then the client refuses a
   * `None` zone id.
   */
  function Prepare(w: Write): (r: Res<(string, ChangeBatch)>)
    ensures r.Raise? <==>
      (w.zoneId.Unbound? || w.host.Unbound? || w.value.Unbound? || w.host.val == "" || w.zoneId.val.None?)
    ensures r.Ok? ==> w.zoneId.val == Some(r.value.0)
    ensures r.Ok? ==> r.value.1.action == w.action && r.value.1.record.rtype == w.rtype &&
                      r.value.1.record.values == [w.value.val]
  {
    if w.zoneId.Unbound? || w.host.Unbound? || w.value.Unbound? then Raise(NameError)
    else match Change(w.action, w.host.val, w.zoneName, w.rtype, w.value.val)
      case Raise(e) => Raise(e)
      case Ok(batch) => if w.zoneId.val.None? then Raise(ClientError) else Ok((w.zoneId.val.value, batch))
  }

  function ApplyWrite(s: DnsState, w: Write): (r: Res<DnsState>)
    ensures r.Ok? ==> r.value.zones == s.zones && r.value.refused == s.refused && r.value.refusedRecords == s.refusedRecords
  {
    match Prepare(w)
    case Raise(e) => Raise(e)
    case Ok(p) => ApplyChange(s, p.0, p.1)
  }

  /** The writes of one `try:` block, in order, up to the first that raises. */
  function RunGroup(s: DnsState, ws: seq<Write>): (r: DnsState)
    ensures r.zones == s.zones && r.refused == s.refused && r.refusedRecords == s.refusedRecords
    decreases |ws|
  {
    if ws == [] then s
    else match ApplyWrite(s, ws[0])
      case Raise(_) => s
      case Ok(s1) => RunGroup(s1, ws[1..])
  }

  /** The record set a write with every argument bound and a host name sends: `host.zone`, one value, TTL 60. */
  function Written(w: Write): (rs: RecordSet)
    requires w.host.Bound? && w.host.val != "" && w.value.Bound?
    ensures rs.rtype == w.rtype && rs.ttl == Ttl && rs.values == [w.value.val]
  {
    RecordSet(RecordName(w.host.val, w.zoneName).value, w.rtype, Ttl, [w.value.val])
  }

  /**
   * An upsert with every argument bound, a host name and a zone Route 53 knows writes
   * its record set, unless the service refuses that record set, which leaves the state
   * as it was.
   */
  lemma UpsertWrite(s: DnsState, w: Write, zoneId: string)
    requires w.action == Upsert && w.zoneId == Bound(Some(zoneId)) && ZoneIndex(s.zones, zoneId) != -1
    requires w.host.Bound? && w.host.val != "" && w.value.Bound?
    ensures ApplyWrite(s, w).Ok? <==> KeyOf(zoneId, Written(w)) !in s.refusedRecords
    ensures ApplyWrite(s, w).Ok? ==> ApplyWrite(s, w).value.records == s.records[KeyOf(zoneId, Written(w)) := Written(w)]
    ensures ApplyWrite(s, w).Raise? ==> RunGroup(s, [w]) == s
  {
    var batch := Prepare(w).value.1;
    assert batch.record == Written(w);
    RunGroupCons(s, w, []);
    assert [w] + [] == [w];
  }

  /** Two such upserts in one block write both record sets, the second over the first on a shared key. */
  lemma UpsertPair(s: DnsState, a: Write, b: Write, za: string, zb: string)
    requires a.action == Upsert && a.zoneId == Bound(Some(za)) && ZoneIndex(s.zones, za) != -1
    requires a.host.Bound? && a.host.val != "" && a.value.Bound?
    requires b.action == Upsert && b.zoneId == Bound(Some(zb)) && ZoneIndex(s.zones, zb) != -1
    requires b.host.Bound? && b.host.val != "" && b.value.Bound?
    requires KeyOf(za, Written(a)) !in s.refusedRecords && KeyOf(zb, Written(b)) !in s.refusedRecords
    ensures var ra := Written(a);
      var rb := Written(b);
      RunGroup(s, [a, b]).records == s.records[KeyOf(za, ra) := ra][KeyOf(zb, rb) := rb]
  {
    UpsertWrite(s, a, za);
    var s1 := ApplyWrite(s, a).value;
    UpsertWrite(s1, b, zb);
    RunGroupCons(s, a, [b]);
    RunGroupCons(s1, b, []);
    assert [a, b] == [a] + [b] && [b] == [b] + [];
  }

  /** Inside one block, a write that raises skips every write after it; one that succeeds lets the next run. */
  lemma RunGroupCons(s: DnsState, w: Write, rest: seq<Write>)
    ensures ApplyWrite(s, w).Raise? ==> RunGroup(s, [w] + rest) == s
    ensures ApplyWrite(s, w).Ok? ==> RunGroup(s, [w] + rest) == RunGroup(ApplyWrite(s, w).value, rest)
  {
    assert ([w] + rest)[1..] == rest;
  }

  /** The same, for the write at position `i` of a block and the writes after it. */
  lemma RunGroupAt(s: DnsState, ws: seq<Write>, i: int)
    requires 0 <= i < |ws|
    ensures ApplyWrite(s, ws[i]).Raise? ==> RunGroup(s, ws[i..]) == s
    ensures ApplyWrite(s, ws[i]).Ok? ==> RunGroup(s, ws[i..]) == RunGroup(ApplyWrite(s, ws[i]).value, ws[i + 1..])
  {
    assert ws[i..] == [ws[i]] + ws[i + 1..];
    RunGroupCons(s, ws[i], ws[i + 1..]);
  }

  /** Every write of the block is an upsert. */
  predicate AllUpserts(ws: seq<Write>)
  {
    forall i :: 0 <= i < |ws| ==> ws[i].action == Upsert
  }

  /**
   * The record sets a block of upserts writes against the zones `zones`: one per write
   * up to the first whose arguments raise, whose zone is unknown or whose record set is
   * refused, a later write replacing an earlier one on the same key.
   */
  function UpsertedRecords(zones: seq<Zone>, refused: set<RecordKey>, ws: seq<Write>): map<RecordKey, RecordSet>
    decreases |ws|
  {
    if ws == [] then map[]
    else match Prepare(ws[0])
      case Raise(_) => map[]
      case Ok(p) =>
        if ZoneIndex(zones, p.0) == -1 || KeyOf(p.0, p.1.record) in refused then map[]
        else map[KeyOf(p.0, p.1.record) := p.1.record] + UpsertedRecords(zones, refused, ws[1..])
  }

  /** A block of upserts adds the record sets `UpsertedRecords` names over the ones already there. */
  lemma {:induction false} RunGroupUpserts(s: DnsState, ws: seq<Write>)
    requires AllUpserts(ws)
    ensures RunGroup(s, ws) == s.(records := s.records + UpsertedRecords(s.zones, s.refusedRecords, ws))
    decreases |ws|
  {
    if ws == [] || Prepare(ws[0]).Raise? || ZoneIndex(s.zones, Prepare(ws[0]).value.0) == -1 ||
       KeyOf(Prepare(ws[0]).value.0, Prepare(ws[0]).value.1.record) in s.refusedRecords {
      assert UpsertedRecords(s.zones, s.refusedRecords, ws) == map[];
      assert RunGroup(s, ws) == s;
      assert s.records + map[] == s.records;
    } else {
      var p := Prepare(ws[0]).value;
      var m := map[KeyOf(p.0, p.1.record) := p.1.record];
      var rest := UpsertedRecords(s.zones, s.refusedRecords, ws[1..]);
      var s1 := s.(records := s.records[KeyOf(p.0, p.1.record) := p.1.record]);
      assert ApplyWrite(s, ws[0]) == Ok(s1);
      assert RunGroup(s, ws) == RunGroup(s1, ws[1..]);
      assert UpsertedRecords(s.zones, s.refusedRecords, ws) == m + rest;
      assert AllUpserts(ws[1..]) by {
        forall i | 0 <= i < |ws[1..]| ensures ws[1..][i].action == Upsert {
          assert ws[1..][i] == ws[i + 1];
        }
      }
      RunGroupUpserts(s1, ws[1..]);
      UpdateThenUnion(s.records, KeyOf(p.0, p.1.record), p.1.record, rest);
    }
  }

  lemma UpdateThenUnion<K, V>(a: map<K, V>, k: K, v: V, b: map<K, V>)
    ensures a[k := v] + b == a + (map[k := v] + b)
  {
  }

  /**
   * Running a block of upserts a second time changes nothing: the zones and the refused
   * record sets are the same, so the same writes succeed, and they write the record sets
   * already there.
   */
  lemma RunGroupIdempotent(s: DnsState, ws: seq<Write>)
    requires AllUpserts(ws)
    ensures RunGroup(RunGroup(s, ws), ws) == RunGroup(s, ws)
  {
    var m := UpsertedRecords(s.zones, s.refusedRecords, ws);
    RunGroupUpserts(s, ws);
    RunGroupUpserts(RunGroup(s, ws), ws);
    assert s.records + m + m == s.records + m;
  }

  /**
   * `get_hosted_zone_properties` and the association check after it: a missing zone id
   * or zone, or a public zone, raises; a missing VPC is associated unless `assoc` says
   * not to, and a refused association is ignored or ends the run with `sys.exit()`.
   */
  function RunProperties(s: DnsState, zoneId: Option<string>, vpc: string, assoc: Assoc): (r: (DnsState, Option<Exc>))
    ensures r.0.records == s.records
    ensures r.1.Some? ==> r.0 == s
    ensures zoneId.None? ==> r == (s, Some(ClientError))
    ensures zoneId.Some? && ZoneVpcs(s, zoneId.value).Raise? ==> r == (s, Some(ZoneVpcs(s, zoneId.value).exc))
    ensures zoneId.Some? && ZoneVpcs(s, zoneId.value).Ok? ==>
      (vpc in ZoneVpcs(s, zoneId.value).value || assoc == NoAssociate ==> r == (s, None)) &&
      (vpc !in ZoneVpcs(s, zoneId.value).value && assoc != NoAssociate && Associate(s, zoneId.value, vpc).Ok? ==>
        r == (Associate(s, zoneId.value, vpc).value, None)) &&
      (vpc !in ZoneVpcs(s, zoneId.value).value && assoc == AssociateOrIgnore && Associate(s, zoneId.value, vpc).Raise? ==>
        r == (s, None))
    ensures r.1.None? && assoc != NoAssociate && zoneId.Some? && (zoneId.value, vpc) !in s.refused ==>
      ZoneVpcs(r.0, zoneId.value).Ok? && vpc in ZoneVpcs(r.0, zoneId.value).value
    ensures r.1 == Some(SystemExit) <==>
      zoneId.Some? && ZoneVpcs(s, zoneId.value).Ok? && vpc !in ZoneVpcs(s, zoneId.value).value &&
      assoc == AssociateOrExit && Associate(s, zoneId.value, vpc).Raise?
  {
    if zoneId.None? then (s, Some(ClientError))
    else match ZoneVpcs(s, zoneId.value)
      case Raise(e) => (s, Some(e))
      case Ok(vpcs) =>
        if vpc in vpcs || assoc == NoAssociate then (s, None)
        else match Associate(s, zoneId.value, vpc)
          case Ok(s1) => (s1, None)
          case Raise(_) => if assoc == AssociateOrExit then (s, Some(SystemExit)) else (s, None)
  }

  function ExecStep(w: World, step: Step): (r: Outcome)
    ensures step.Halt? ==> r == Outcome(w, Some(step.exc))
    ensures step.Try? ==> r.halted.None? && r.world.table == w.table && r.world.dns.zones == w.dns.zones
    ensures !step.Try? ==> r.world.dns.records == w.dns.records
    ensures !step.DeleteSnapshot? ==> r.world.table == w.table
    ensures step.DeleteSnapshot? ==> r.halted.None? && r.world.dns == w.dns && r.world.table.Keys == w.table.Keys - {step.assetId}
    ensures step.DeleteSnapshot? ==> forall k :: k in r.world.table ==> r.world.table[k] == w.table[k]
    ensures step.CreateReverseZone? ==>
      (r.halted.Some? <==> step.name in w.dns.refusedZones) && (r.halted.Some? ==> r == Outcome(w, Some(ClientError)))
  {
    match step
    case Properties(z, vpc, assoc) =>
      var (s, h) := RunProperties(w.dns, z, vpc, assoc);
      Outcome(w.(dns := s), h)
    case CreateReverseZone(name, vpc, id) =>
      var c := CreateZone(w.dns, name, vpc, id);
      if c.Raise? then Outcome(w, Some(c.exc)) else Outcome(w.(dns := c.value), None)
    case Try(ws) => Outcome(w.(dns := RunGroup(w.dns, ws)), None)
    case DeleteSnapshot(id) => Outcome(w.(table := w.table - {id}), None)
    case Halt(e) => Outcome(w, Some(e))
  }

  /** The steps in order, up to the first that ends the run. */
  function Execute(w: World, steps: seq<Step>): (r: Outcome)
    decreases |steps|
  {
    if steps == [] then Outcome(w, None)
    else
      var o := ExecStep(w, steps[0]);
      if o.halted.Some? then o else Execute(o.world, steps[1..])
  }

  /** Running two step lists one after the other is running their concatenation. */
  lemma {:induction false} ExecuteAppend(w: World, a: seq<Step>, b: seq<Step>)
    ensures Execute(w, a + b) ==
      var o := Execute(w, a);
      if o.halted.Some? then o else Execute(o.world, b)
    decreases |a|
  {
    if a == [] {
      assert a + b == b;
    } else {
      assert (a + b)[0] == a[0] && (a + b)[1..] == a[1..] + b;
      var o := ExecStep(w, a[0]);
      if o.halted.None? {
        ExecuteAppend(o.world, a[1..], b);
      }
    }
  }

  /** Once a run has ended, nothing appended to it happens. */
  lemma ExecuteHalted(w: World, a: seq<Step>, b: seq<Step>)
    requires Execute(w, a).halted.Some?
    ensures Execute(w, a + b) == Execute(w, a)
  {
    ExecuteAppend(w, a, b);
  }

  /** A run that has not ended goes on with what is appended, from where it stopped. */
  lemma ExecuteContinues(w: World, a: seq<Step>, b: seq<Step>)
    requires Execute(w, a).halted.None?
    ensures Execute(w, a + b) == Execute(Execute(w, a).world, b)
  {
    ExecuteAppend(w, a, b);
  }

  /** A run with no snapshot deletion in it leaves the table as it found it. */
  lemma {:induction false} ExecuteKeepsTable(w: World, steps: seq<Step>)
    requires forall i :: 0 <= i < |steps| ==> !steps[i].DeleteSnapshot?
    ensures Execute(w, steps).world.table == w.table
    decreases |steps|
  {
    if steps != [] {
      var o := ExecStep(w, steps[0]);
      if o.halted.None? {
        assert forall i :: 0 <= i < |steps| - 1 ==> steps[1..][i] == steps[i + 1];
        ExecuteKeepsTable(o.world, steps[1..]);
      }
    }
  }

  /** A run made only of record-write blocks never ends early and touches nothing but records. */
  lemma {:induction false} ExecuteWritesOnly(w: World, steps: seq<Step>)
    requires forall i :: 0 <= i < |steps| ==> steps[i].Try?
    ensures Execute(w, steps).halted.None?
    ensures Execute(w, steps).world.table == w.table && Execute(w, steps).world.dns.zones == w.dns.zones
    decreases |steps|
  {
    if steps != [] {
      assert forall i :: 0 <= i < |steps| - 1 ==> steps[1..][i] == steps[i + 1];
      ExecuteWritesOnly(ExecStep(w, steps[0]).world, steps[1..]);
    }
  }
}
