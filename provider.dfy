/**
 * The part of Route 53 the handler talks to: the hosted zones with their VPC
 * associations and the record sets, as a pure state with one function per call, and a
 * `DnsProvider` class whose methods change that state in place.  Which associations
 * which new zones it refuses (an invalid VPC region, say) and which record sets it
 * refuses to write (a CNAME over a name that holds another type, a throttled call) are
 * parameters of the state.
 */
module Provider {
  import opened Wrappers
  import opened Zones
  import opened Records

  /** A record set is identified by its zone, its name and its type. */
  datatype RecordKey = RecordKey(zoneId: string, name: string, rtype: RType)

  datatype DnsState = DnsState(
    zones: seq<Zone>,
    records: map<RecordKey, RecordSet>,
    refused: set<(string, string)>,
    refusedZones: set<string>,
    refusedRecords: set<RecordKey>)

  /** The position of the zone a short id addresses, or -1. */
  function ZoneIndex(zones: seq<Zone>, id: string): (i: int)
    ensures -1 <= i < |zones|
    ensures 0 <= i ==> ZoneIdOf(zones[i].longId) == Ok(id)
    ensures i == -1 <==> forall j :: 0 <= j < |zones| ==> ZoneIdOf(zones[j].longId) != Ok(id)
  {
    if zones == [] then -1
    else if ZoneIdOf(zones[0].longId) == Ok(id) then 0
    else
      var j := ZoneIndex(zones[1..], id);
      assert forall k :: 1 <= k < |zones| ==> zones[k] == zones[1..][k - 1];
      if j == -1 then -1 else j + 1
  }

  function KeyOf(zoneId: string, rs: RecordSet): RecordKey
  {
    RecordKey(zoneId, rs.name, rs.rtype)
  }

  /** The record map holds exactly `rs` under its key in zone `zoneId`. */
  predicate Holds(s: DnsState, zoneId: string, rs: RecordSet)
  {
    KeyOf(zoneId, rs) in s.records && s.records[KeyOf(zoneId, rs)] == rs
  }

  /**
   * `change_resource_record_sets`: an unknown zone is refused; UPSERT creates or
   * replaces the record set unless the service refuses that record set; DELETE needs a
   * record set equal to the one named, else it is refused.
   */
  function ApplyChange(s: DnsState, zoneId: string, batch: ChangeBatch): (r: Res<DnsState>)
    ensures r.Raise? ==> r.exc == ClientError
    ensures r.Ok? ==> r.value.zones == s.zones && r.value.refused == s.refused && r.value.refusedRecords == s.refusedRecords
    ensures r.Raise? <==>
      ZoneIndex(s.zones, zoneId) == -1 ||
      (batch.action == Upsert && KeyOf(zoneId, batch.record) in s.refusedRecords) ||
      (batch.action == Delete && !Holds(s, zoneId, batch.record))
    ensures r.Ok? && batch.action == Upsert ==>
      r.value.records == s.records[KeyOf(zoneId, batch.record) := batch.record]
    ensures r.Ok? && batch.action == Delete ==>
      r.value.records == s.records - {KeyOf(zoneId, batch.record)}
  {
    var key := KeyOf(zoneId, batch.record);
    if ZoneIndex(s.zones, zoneId) == -1 then Raise(ClientError)
    else match batch.action
      case Upsert =>
        if key in s.refusedRecords then Raise(ClientError)
        else Ok(s.(records := s.records[key := batch.record]))
      case Delete =>
        if Holds(s, zoneId, batch.record) then Ok(s.(records := s.records - {key}))
        else Raise(ClientError)
  }

  /** A delete of the record set an upsert just wrote takes the record map back to where it was, less that key. */
  lemma DeleteUndoesUpsert(s: DnsState, zoneId: string, batch: ChangeBatch)
    requires batch.action == Upsert
    requires ApplyChange(s, zoneId, batch).Ok?
    ensures ApplyChange(ApplyChange(s, zoneId, batch).value, zoneId, batch.(action := Delete)).Ok?
    ensures ApplyChange(ApplyChange(s, zoneId, batch).value, zoneId, batch.(action := Delete)).value ==
      s.(records := s.records - {KeyOf(zoneId, batch.record)})
  {
    var s1 := ApplyChange(s, zoneId, batch).value;
    var s2 := ApplyChange(s1, zoneId, batch.(action := Delete)).value;
    assert s2.records == s.records - {KeyOf(zoneId, batch.record)};
  }

  /** On a key that held nothing, upsert then delete leaves no trace. */
  lemma UpsertDeleteRoundTrip(s: DnsState, zoneId: string, batch: ChangeBatch)
    requires batch.action == Upsert
    requires ApplyChange(s, zoneId, batch).Ok?
    requires KeyOf(zoneId, batch.record) !in s.records
    ensures ApplyChange(ApplyChange(s, zoneId, batch).value, zoneId, batch.(action := Delete)) == Ok(s)
  {
    DeleteUndoesUpsert(s, zoneId, batch);
    assert s.records - {KeyOf(zoneId, batch.record)} == s.records;
  }

  /** Sending the same upsert twice leaves Route 53 as one send does. */
  lemma UpsertIdempotent(s: DnsState, zoneId: string, batch: ChangeBatch)
    requires batch.action == Upsert
    ensures ApplyChange(s, zoneId, batch).Ok? ==>
      ApplyChange(ApplyChange(s, zoneId, batch).value, zoneId, batch) == ApplyChange(s, zoneId, batch)
  {
    var key := KeyOf(zoneId, batch.record);
    assert s.records[key := batch.record][key := batch.record] == s.records[key := batch.record];
  }

  /**
   * `get_hosted_zone(Id=...)['VPCs']`: an unknown zone is refused, and a public zone
   * has no `VPCs` key.
   */
  function ZoneVpcs(s: DnsState, zoneId: string): (r: Res<seq<string>>)
    ensures r.Raise? <==> ZoneIndex(s.zones, zoneId) == -1 || !s.zones[ZoneIndex(s.zones, zoneId)].isPrivate
    ensures r.Raise? && ZoneIndex(s.zones, zoneId) == -1 ==> r.exc == ClientError
    ensures r.Raise? && ZoneIndex(s.zones, zoneId) != -1 ==> r.exc == KeyError
    ensures r.Ok? ==> r.value == s.zones[ZoneIndex(s.zones, zoneId)].vpcs
  {
    var i := ZoneIndex(s.zones, zoneId);
    if i == -1 then Raise(ClientError)
    else if !s.zones[i].isPrivate then Raise(KeyError)
    else Ok(s.zones[i].vpcs)
  }

  /**
   * `associate_vpc_with_hosted_zone`: refused for an unknown or public zone, a VPC
   * already associated, or a pair the service rejects; otherwise the VPC joins the
   * zone's list and nothing else changes.
   */
  function Associate(s: DnsState, zoneId: string, vpc: string): (r: Res<DnsState>)
    ensures r.Raise? ==> r.exc == ClientError
    ensures r.Raise? <==> ZoneVpcs(s, zoneId).Raise? || vpc in ZoneVpcs(s, zoneId).value || (zoneId, vpc) in s.refused
    ensures r.Ok? ==> r.value.records == s.records && r.value.refused == s.refused
    ensures r.Ok? ==> r.value.refusedRecords == s.refusedRecords
    ensures r.Ok? ==> |r.value.zones| == |s.zones|
    ensures r.Ok? ==> ZoneVpcs(r.value, zoneId) == Ok(ZoneVpcs(s, zoneId).value + [vpc])
    ensures r.Ok? ==> forall j :: 0 <= j < |s.zones| && j != ZoneIndex(s.zones, zoneId) ==> r.value.zones[j] == s.zones[j]
  {
    var i := ZoneIndex(s.zones, zoneId);
    if i == -1 || !s.zones[i].isPrivate || vpc in s.zones[i].vpcs || (zoneId, vpc) in s.refused then Raise(ClientError)
    else
      var zs := s.zones[i := s.zones[i].(vpcs := s.zones[i].vpcs + [vpc])];
      ZoneIndexKeeps(s.zones, i, zs[i], zoneId);
      Ok(s.(zones := zs))
  }

  /** Replacing a zone by one with the same id moves no zone index. */
  lemma ZoneIndexKeeps(zones: seq<Zone>, i: int, z: Zone, id: string)
    requires 0 <= i < |zones| && z.longId == zones[i].longId
    ensures ZoneIndex(zones[i := z], id) == ZoneIndex(zones, id)
  {
    var zs := zones[i := z];
    assert forall j :: 0 <= j < |zones| ==> zs[j].longId == zones[j].longId;
    var a, b := ZoneIndex(zs, id), ZoneIndex(zones, id);
    if a != b {
      if a == -1 || (b != -1 && b < a) {
        assert ZoneIdOf(zs[b].longId) == Ok(id);
        ZoneIndexFirst(zs, id, b);
      } else {
        assert ZoneIdOf(zones[a].longId) == Ok(id);
        ZoneIndexFirst(zones, id, a);
      }
    }
  }

  /** An association moves no zone index, so every zone id addresses the zone it did before. */
  lemma AssociateKeepsIndex(s: DnsState, zoneId: string, vpc: string, id: string)
    requires Associate(s, zoneId, vpc).Ok?
    ensures ZoneIndex(Associate(s, zoneId, vpc).value.zones, id) == ZoneIndex(s.zones, id)
  {
    var i := ZoneIndex(s.zones, zoneId);
    ZoneIndexKeeps(s.zones, i, s.zones[i].(vpcs := s.zones[i].vpcs + [vpc]), id);
  }

  /** No zone before the one `ZoneIndex` picks answers to the same id. */
  lemma {:induction false} ZoneIndexFirst(zones: seq<Zone>, id: string, j: int)
    requires 0 <= j < |zones| && ZoneIdOf(zones[j].longId) == Ok(id)
    ensures 0 <= ZoneIndex(zones, id) <= j
  {
    if ZoneIdOf(zones[0].longId) != Ok(id) {
      assert zones[j] == zones[1..][j - 1];
      ZoneIndexFirst(zones[1..], id, j - 1);
    }
  }

  /** The private zone `create_hosted_zone` adds, associated with the caller's VPC. */
  function NewZone(name: string, vpc: string, id: string): Zone
  {
    Zone("/hostedzone/" + id, name, true, [vpc])
  }

  /**
   * `create_hosted_zone`: refused with ClientError for a name the service rejects;
   * otherwise the new private zone is listed after every existing one.
   */
  function CreateZone(s: DnsState, name: string, vpc: string, id: string): (r: Res<DnsState>)
    ensures r.Raise? <==> name in s.refusedZones
    ensures r.Raise? ==> r.exc == ClientError
    ensures r.Ok? ==> r.value.zones == s.zones + [NewZone(name, vpc, id)]
    ensures r.Ok? ==> r.value.records == s.records && r.value.refused == s.refused && r.value.refusedZones == s.refusedZones
    ensures r.Ok? ==> r.value.refusedRecords == s.refusedRecords
  {
    if name in s.refusedZones then Raise(ClientError)
    else Ok(s.(zones := s.zones + [NewZone(name, vpc, id)]))
  }

  /** The zone just created is private and associated with exactly the caller's VPC. */
  lemma CreatedZoneVpcs(s: DnsState, name: string, vpc: string, id: string)
    requires '/' !in id
    requires ZoneIndex(s.zones, id) == -1
    ensures CreateZone(s, name, vpc, id).Ok? ==> ZoneVpcs(CreateZone(s, name, vpc, id).value, id) == Ok([vpc])
  {
    if name in s.refusedZones {
      return;
    }
    var r := CreateZone(s, name, vpc, id).value;
    ZoneIdOfListed(id);
    assert ZoneIdOf(r.zones[|s.zones|].longId) == Ok(id);
    ZoneIndexFirst(r.zones, id, |s.zones|);
    var i := ZoneIndex(r.zones, id);
    assert forall j :: 0 <= j < |s.zones| ==> r.zones[j] == s.zones[j] && ZoneIdOf(r.zones[j].longId) != Ok(id);
    assert i == |s.zones|;
    assert r.zones[i] == NewZone(name, vpc, id);
  }

  /** Route 53 as a mutable service object. */
  class DnsProvider {
    var zones: seq<Zone>
    var records: map<RecordKey, RecordSet>
    var refused: set<(string, string)>
    var refusedZones: set<string>
    var refusedRecords: set<RecordKey>

    function State(): DnsState
      reads this
    {
      DnsState(zones, records, refused, refusedZones, refusedRecords)
    }

    constructor (s: DnsState)
      ensures State() == s
    {
      zones := s.zones;
      records := s.records;
      refused := s.refused;
      refusedZones := s.refusedZones;
      refusedRecords := s.refusedRecords;
    }

    /** `list_hosted_zones()['HostedZones']`. */
    method ListHostedZones() returns (zs: seq<Zone>)
      ensures zs == State().zones
    {
      zs := zones;
    }

    /** `get_hosted_zone(Id=zone_id)['VPCs']`, as the VPC ids. */
    method GetHostedZoneVpcs(zoneId: string) returns (r: Res<seq<string>>)
      ensures r == ZoneVpcs(State(), zoneId)
    {
      var i := ZoneIndex(zones, zoneId);
      if i == -1 {
        r := Raise(ClientError);
      } else if !zones[i].isPrivate {
        r := Raise(KeyError);
      } else {
        r := Ok(zones[i].vpcs);
      }
    }

    method ChangeResourceRecordSets(zoneId: string, batch: ChangeBatch) returns (err: Option<Exc>)
      modifies this
      ensures ApplyChange(old(State()), zoneId, batch).Ok? ==>
        err == None && State() == ApplyChange(old(State()), zoneId, batch).value
      ensures ApplyChange(old(State()), zoneId, batch).Raise? ==>
        err == Some(ApplyChange(old(State()), zoneId, batch).exc) && State() == old(State())
    {
      var key := KeyOf(zoneId, batch.record);
      if ZoneIndex(zones, zoneId) == -1 {
        err := Some(ClientError);
      } else if batch.action == Upsert {
        if key in refusedRecords {
          err := Some(ClientError);
        } else {
          records := records[key := batch.record];
          err := None;
        }
      } else if key in records && records[key] == batch.record {
        records := records - {key};
        err := None;
      } else {
        err := Some(ClientError);
      }
    }

    method AssociateVpcWithHostedZone(zoneId: string, vpc: string) returns (err: Option<Exc>)
      modifies this
      ensures Associate(old(State()), zoneId, vpc).Ok? ==>
        err == None && State() == Associate(old(State()), zoneId, vpc).value
      ensures Associate(old(State()), zoneId, vpc).Raise? ==>
        err == Some(ClientError) && State() == old(State())
    {
      var i := ZoneIndex(zones, zoneId);
      if i == -1 || !zones[i].isPrivate || vpc in zones[i].vpcs || (zoneId, vpc) in refused {
        err := Some(ClientError);
      } else {
        zones := zones[i := zones[i].(vpcs := zones[i].vpcs + [vpc])];
        err := None;
      }
    }

    method CreateHostedZone(name: string, vpc: string, id: string) returns (err: Option<Exc>)
      modifies this
      ensures CreateZone(old(State()), name, vpc, id).Ok? ==>
        err == None && State() == CreateZone(old(State()), name, vpc, id).value
      ensures CreateZone(old(State()), name, vpc, id).Raise? ==>
        err == Some(ClientError) && State() == old(State())
    {
      if name in refusedZones {
        err := Some(ClientError);
      } else {
        zones := zones + [NewZone(name, vpc, id)];
        err := None;
      }
    }
  }
}
