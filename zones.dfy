/**
 * Hosted zones as `list_hosted_zones` reports them, the private and public zone
 * collections `lambda_handler` derives from one listing, the `next(...)` lookups over
 * those collections, and `get_zone_id`.
 */
module Zones {
  import opened Wrappers
  import opened Strings
  import opened Records

  /**
   * A hosted zone: its `Id` as listed ("/hostedzone/" followed by the short id), its
   * `Name`, `Config.PrivateZone`, and the VPCs `get_hosted_zone` reports for it.
   */
  datatype Zone = Zone(longId: string, name: string, isPrivate: bool, vpcs: seq<string>)

  /** One element of a zone collection, `{'Name': ..., 'Id': ...}`. */
  datatype Entry = Entry(name: string, id: string)

  /** `str.split(str(x['Id']), '/')[2]`: the short zone id, or IndexError. */
  function ZoneIdOf(longId: string): (r: Res<string>)
    ensures r.Raise? <==> |Split(longId, '/')| < 3
    ensures r.Raise? ==> r.exc == IndexError
  {
    var parts := Split(longId, '/');
    if |parts| < 3 then Raise(IndexError) else Ok(parts[2])
  }

  /** The listed form of a short id gives the short id back. */
  lemma ZoneIdOfListed(id: string)
    requires '/' !in id
    ensures ZoneIdOf("/hostedzone/" + id) == Ok(id)
  {
    var parts := ["", "hostedzone", id];
    assert "/hostedzone/" + id == Join(parts, '/') by {
      assert Join(parts[2..], '/') == id;
      assert Join(parts[1..], '/') == "hostedzone" + "/" + id;
    }
    assert '/' !in "hostedzone";
    forall k | 0 <= k < 3 ensures '/' !in parts[k] {
    }
    SplitJoin(parts, '/');
  }

  /** An extracted id never holds a '/'. */
  lemma ZoneIdOfNoSlash(longId: string)
    requires ZoneIdOf(longId).Ok?
    ensures '/' !in ZoneIdOf(longId).value
  {
    SplitFree(longId, '/');
  }

  /** The zones whose `Config.PrivateZone` is `private`, in listing order. */
  function Filter(zones: seq<Zone>, private: bool): (r: seq<Zone>)
    ensures |r| <= |zones|
    ensures forall i :: 0 <= i < |r| ==> r[i].isPrivate == private
    ensures forall z :: z in r <==> z in zones && z.isPrivate == private
  {
    if zones == [] then []
    else if zones[0].isPrivate == private then [zones[0]] + Filter(zones[1..], private)
    else Filter(zones[1..], private)
  }

  /** Filtering a listing piece by piece keeps the listing order. */
  lemma {:induction false} FilterAppend(a: seq<Zone>, b: seq<Zone>, private: bool)
    ensures Filter(a + b, private) == Filter(a, private) + Filter(b, private)
  {
    if a != [] {
      assert (a + b)[1..] == a[1..] + b;
      FilterAppend(a[1..], b, private);
    } else {
      assert a + b == b;
    }
  }

  /** Every zone lands in exactly one of the two collections. */
  lemma {:induction false} FilterPartition(zones: seq<Zone>)
    ensures |Filter(zones, true)| + |Filter(zones, false)| == |zones|
  {
    if zones != [] {
      FilterPartition(zones[1..]);
    }
  }

  /** `map(lambda x: {'Name': x['Name'], 'Id': ...}, zones)`. */
  function Entries(zones: seq<Zone>): (r: Res<seq<Entry>>)
    ensures r.Raise? ==> r.exc == IndexError
    ensures r.Ok? ==> |r.value| == |zones|
  {
    if zones == [] then Ok([])
    else
      match ZoneIdOf(zones[0].longId)
      case Raise(e) => Raise(e)
      case Ok(id) =>
        var rest := Entries(zones[1..]);
        if rest.Raise? then rest else Ok([Entry(zones[0].name, id)] + rest.value)
  }

  /** Each entry names its zone and carries the zone's short id; one bad id fails the whole map. */
  lemma {:induction false} EntriesSpec(zones: seq<Zone>)
    ensures Entries(zones).Ok? <==> forall i :: 0 <= i < |zones| ==> ZoneIdOf(zones[i].longId).Ok?
    ensures Entries(zones).Ok? ==> forall i :: 0 <= i < |zones| ==>
      Entries(zones).value[i] == Entry(zones[i].name, ZoneIdOf(zones[i].longId).value)
  {
    if zones != [] {
      EntriesSpec(zones[1..]);
      assert forall i :: 1 <= i < |zones| ==> zones[i] == zones[1..][i - 1];
    }
  }

  /** The private (or public) hosted zone collection. */
  function Collection(zones: seq<Zone>, private: bool): (r: Res<seq<Entry>>)
    ensures r.Raise? ==> r.exc == IndexError
    ensures r.Ok? ==> |r.value| == |Filter(zones, private)|
  {
    Entries(Filter(zones, private))
  }

  /** The form of a name the zone lookups compare: `name.lstrip().lower()`. */
  function NameKey(name: string): string
  {
    Lower(LStrip(name))
  }

  /** `next((zone for zone in coll if zone['Name'].lstrip().lower() == key), False)`. */
  function FirstKeyed(coll: seq<Entry>, key: string): (r: Option<Entry>)
    ensures r.Some? ==> r.value in coll && NameKey(r.value.name) == key
  {
    if coll == [] then None
    else if NameKey(coll[0].name) == key then Some(coll[0])
    else FirstKeyed(coll[1..], key)
  }

  predicate NoMatchBefore(coll: seq<Entry>, key: string, i: int)
    requires 0 <= i <= |coll|
  {
    forall j :: 0 <= j < i ==> NameKey(coll[j].name) != key
  }

  /** The lookup finds nothing only when no entry matches, and otherwise the first match. */
  lemma {:induction false} FirstKeyedSpec(coll: seq<Entry>, key: string)
    ensures FirstKeyed(coll, key).None? <==> forall j :: 0 <= j < |coll| ==> NameKey(coll[j].name) != key
    ensures FirstKeyed(coll, key).Some? ==>
      exists i :: 0 <= i < |coll| && coll[i] == FirstKeyed(coll, key).value && NoMatchBefore(coll, key, i)
  {
    if coll != [] {
      FirstKeyedSpec(coll[1..], key);
      assert forall j :: 1 <= j < |coll| ==> coll[j] == coll[1..][j - 1];
      if NameKey(coll[0].name) == key {
        assert NoMatchBefore(coll, key, 0);
      } else if FirstKeyed(coll, key).Some? {
        var i :| 0 <= i < |coll[1..]| && coll[1..][i] == FirstKeyed(coll, key).value && NoMatchBefore(coll[1..], key, i);
        assert coll[i + 1] == FirstKeyed(coll, key).value;
        assert NoMatchBefore(coll, key, i + 1);
      }
    }
  }

  /** An entry that matches with no match before it is the one the lookup returns. */
  lemma {:induction false} FirstKeyedAt(coll: seq<Entry>, key: string, i: int)
    requires 0 <= i < |coll| && NameKey(coll[i].name) == key && NoMatchBefore(coll, key, i)
    ensures FirstKeyed(coll, key) == Some(coll[i])
  {
    if i > 0 {
      assert NameKey(coll[0].name) != key;
      assert forall j :: 0 <= j < i - 1 ==> coll[1..][j] == coll[j + 1];
      assert NoMatchBefore(coll[1..], key, i - 1);
      FirstKeyedAt(coll[1..], key, i - 1);
    }
  }

  /** The public zones whose listed name ends the CNAME value: `cname.endswith(zone['Name'])`. */
  function SuffixZones(coll: seq<Entry>, cname: string): (r: seq<Entry>)
    ensures |r| <= |coll|
    ensures forall e :: e in r <==> e in coll && EndsWith(cname, e.name)
  {
    if coll == [] then []
    else if EndsWith(cname, coll[0].name) then [coll[0]] + SuffixZones(coll[1..], cname)
    else SuffixZones(coll[1..], cname)
  }

  /** The first listed zone whose name is exactly `name`. */
  function FirstNamed(zones: seq<Zone>, name: string): (r: Option<Zone>)
    ensures r.Some? ==> r.value in zones && r.value.name == name
    ensures r.None? <==> forall z :: z in zones ==> z.name != name
  {
    if zones == [] then None
    else if zones[0].name == name then Some(zones[0])
    else FirstNamed(zones[1..], name)
  }

  predicate NoNameBefore(zones: seq<Zone>, name: string, i: int)
    requires 0 <= i <= |zones|
  {
    forall j :: 0 <= j < i ==> zones[j].name != name
  }

  /** The zone found is the first one carrying the name. */
  lemma {:induction false} FirstNamedIsFirst(zones: seq<Zone>, name: string)
    requires FirstNamed(zones, name).Some?
    ensures exists i :: 0 <= i < |zones| && zones[i] == FirstNamed(zones, name).value && NoNameBefore(zones, name, i)
  {
    if zones[0].name == name {
      assert NoNameBefore(zones, name, 0);
    } else {
      FirstNamedIsFirst(zones[1..], name);
      var i :| 0 <= i < |zones[1..]| && zones[1..][i] == FirstNamed(zones, name).value && NoNameBefore(zones[1..], name, i);
      assert zones[i + 1] == FirstNamed(zones, name).value;
      assert NoNameBefore(zones, name, i + 1);
    }
  }

  /**
   * `get_zone_id` over a live listing: `zone_name[-1]` raises IndexError on "", a
   * missing trailing dot is added, and a missing zone or a malformed id gives None.
   */
  function GetZoneId(zones: seq<Zone>, name: string): (r: Res<Option<string>>)
    ensures r.Raise? <==> name == ""
    ensures r.Raise? ==> r.exc == IndexError
    ensures name != "" && r.Ok? && r.value.Some? ==>
      FirstNamed(zones, DotTerminated(name)).Some? &&
      ZoneIdOf(FirstNamed(zones, DotTerminated(name)).value.longId) == Ok(r.value.value)
    ensures name != "" ==>
      (FirstNamed(zones, DotTerminated(name)).Some? && ZoneIdOf(FirstNamed(zones, DotTerminated(name)).value.longId).Ok?
       ==> r.Ok? && r.value.Some?)
  {
    if name == "" then Raise(IndexError)
    else
      match FirstNamed(zones, DotTerminated(name))
      case None => Ok(None)
      case Some(z) => if ZoneIdOf(z.longId).Ok? then Ok(Some(ZoneIdOf(z.longId).value)) else Ok(None)
  }

  /** A name no listed zone carries gives None. */
  lemma GetZoneIdMissing(zones: seq<Zone>, name: string)
    requires name != "" && name[|name| - 1] == '.'
    requires forall z :: z in zones ==> z.name != name
    ensures GetZoneId(zones, name) == Ok(None)
  {
  }

  /**
   * Right after a zone named `name` is appended to a listing that held none, reading
   * its id back finds the new zone.
   */
  lemma GetZoneIdOfNew(zones: seq<Zone>, name: string, id: string, vpc: string)
    requires name != "" && name[|name| - 1] == '.'
    requires forall z :: z in zones ==> z.name != name
    requires '/' !in id
    ensures GetZoneId(zones + [Zone("/hostedzone/" + id, name, true, [vpc])], name) == Ok(Some(id))
  {
    var zs := zones + [Zone("/hostedzone/" + id, name, true, [vpc])];
    FirstNamedAppend(zones, Zone("/hostedzone/" + id, name, true, [vpc]));
    ZoneIdOfListed(id);
  }

  lemma {:induction false} FirstNamedAppend(zones: seq<Zone>, z: Zone)
    requires forall y :: y in zones ==> y.name != z.name
    ensures FirstNamed(zones + [z], z.name) == Some(z)
  {
    if zones != [] {
      assert (zones + [z])[1..] == zones[1..] + [z];
      assert zones[0] in zones;
      FirstNamedAppend(zones[1..], z);
    } else {
      assert zones + [z] == [z];
    }
  }
}
