/**
 * The asset the handler works on: the tags and the `extras` dictionary that
 * `set_instance_vars`, `set_lbv1_vars` and `set_lbv2_vars` build, and the
 * document form in which `db_put_asset` stores it after `remove_empty_from_dict`.
 * An absent dictionary key is `None`; a key holding "" is `Some("")`.
 */
module Assets {
  import opened Wrappers
  import Json

  /** One entry of the asset's tag list, `{'Key': ..., 'Value': ...}`. */
  datatype Tag = Tag(key: Option<string>, value: Option<string>)

  /** `extras['type']`. */
  datatype Kind = Instance | Elb

  /** The `extras` dictionary. */
  datatype Extras = Extras(
    kind: Kind,
    version: Option<string>,
    region: Option<string>,
    lbScheme: Option<string>,
    privateIp: Option<string>,
    publicIp: Option<string>,
    privateDnsName: Option<string>,
    publicDnsName: Option<string>,
    subnetId: Option<string>,
    vpcId: Option<string>)

  datatype Asset = Asset(tags: seq<Tag>, extras: Extras)

  /** `event_state`: 'create' or 'destroy'. */
  datatype State = Create | Destroy

  function KindName(k: Kind): string
  {
    match k
    case Instance => "instance"
    case Elb => "elb"
  }

  /** A dictionary of string values: the keys mapped to `None` are absent. */
  function StrDict(m: map<string, Option<string>>): Json.Value
  {
    Json.Dict(map k | k in m && m[k].Some? :: Json.Str(m[k].value))
  }

  /** What pruning does to one string-valued key: a "" value disappears. */
  function PruneOpt(o: Option<string>): (r: Option<string>)
    ensures r.Some? <==> o.Some? && o.value != ""
    ensures r.Some? ==> r == o
  {
    if o == Some("") then None else o
  }

  function PruneMap(m: map<string, Option<string>>): map<string, Option<string>>
  {
    map k | k in m :: PruneOpt(m[k])
  }

  function ExtrasFields(e: Extras): map<string, Option<string>>
  {
    map[
      "type" := Some(KindName(e.kind)),
      "version" := e.version,
      "region" := e.region,
      "lb_scheme" := e.lbScheme,
      "private_ip" := e.privateIp,
      "public_ip" := e.publicIp,
      "private_dns_name" := e.privateDnsName,
      "public_dns_name" := e.publicDnsName,
      "subnet_id" := e.subnetId,
      "vpc_id" := e.vpcId]
  }

  function TagFields(t: Tag): map<string, Option<string>>
  {
    map["Key" := t.key, "Value" := t.value]
  }

  function TagValues(ts: seq<Tag>): (r: seq<Json.Value>)
    ensures |r| == |ts|
  {
    seq(|ts|, i requires 0 <= i < |ts| => StrDict(TagFields(ts[i])))
  }

  /** The asset as the handler holds it in memory: `tags` is always present. */
  function InMemory(a: Asset): Json.Value
  {
    Json.Dict(map["tags" := Json.List(TagValues(a.tags)), "extras" := StrDict(ExtrasFields(a.extras))])
  }

  /** The asset as the table returns it: a missing `tags` key reads back as []. */
  function Stored(a: Asset): Json.Value
  {
    var extras := map["extras" := StrDict(ExtrasFields(a.extras))];
    if a.tags == [] then Json.Dict(extras)
    else Json.Dict(extras["tags" := Json.List(TagValues(a.tags))])
  }

  predicate HasField(t: Tag)
  {
    t.key.Some? || t.value.Some?
  }

  function PruneTag(t: Tag): Tag
  {
    Tag(PruneOpt(t.key), PruneOpt(t.value))
  }

  /** The tags that survive pruning, each without its empty fields. */
  function PruneTags(ts: seq<Tag>): (r: seq<Tag>)
    ensures |r| <= |ts|
    ensures forall i :: 0 <= i < |r| ==> HasField(r[i]) && CleanTag(r[i])
  {
    if ts == [] then []
    else if HasField(PruneTag(ts[0])) then [PruneTag(ts[0])] + PruneTags(ts[1..])
    else PruneTags(ts[1..])
  }

  /** A tag pruning leaves as it is: no field holds "" and at least one field is there. */
  predicate CleanTag(t: Tag)
  {
    t.key != Some("") && t.value != Some("") && HasField(t)
  }

  /** No field of the extras holds "". */
  predicate CleanExtras(e: Extras)
  {
    e.version != Some("") && e.region != Some("") && e.lbScheme != Some("") &&
    e.privateIp != Some("") && e.publicIp != Some("") && e.privateDnsName != Some("") &&
    e.publicDnsName != Some("") && e.subnetId != Some("") && e.vpcId != Some("")
  }

  /** An asset `remove_empty_from_dict` does not change. */
  predicate Unpruned(a: Asset)
  {
    (forall i :: 0 <= i < |a.tags| ==> CleanTag(a.tags[i])) && CleanExtras(a.extras)
  }

  function PruneExtras(e: Extras): Extras
  {
    Extras(e.kind, PruneOpt(e.version), PruneOpt(e.region), PruneOpt(e.lbScheme),
      PruneOpt(e.privateIp), PruneOpt(e.publicIp), PruneOpt(e.privateDnsName),
      PruneOpt(e.publicDnsName), PruneOpt(e.subnetId), PruneOpt(e.vpcId))
  }

  /** The snapshot `db_put_asset` writes: no "" field and no tag without a field. */
  function PruneAsset(a: Asset): (r: Asset)
    ensures r.extras.kind == a.extras.kind
    ensures |r.tags| <= |a.tags|
  {
    Asset(PruneTags(a.tags), PruneExtras(a.extras))
  }

  lemma RemoveEmptyStrDict(m: map<string, Option<string>>)
    ensures Json.RemoveEmpty(StrDict(m)) == StrDict(PruneMap(m))
  {
    var v := StrDict(m);
    forall k | k in v.d ensures Json.RemoveEmpty(v.d[k]) == v.d[k] {
    }
    assert Json.RemoveEmpty(v).d == StrDict(PruneMap(m)).d;
  }

  lemma PruneMapUpdate(m: map<string, Option<string>>, k: string, o: Option<string>)
    ensures PruneMap(m[k := o]) == PruneMap(m)[k := PruneOpt(o)]
  {
  }

  lemma ExtrasPrune(e: Extras)
    ensures PruneMap(ExtrasFields(e)) == ExtrasFields(PruneExtras(e))
  {
    var m0: map<string, Option<string>> := map[];
    var m1 := m0["type" := Some(KindName(e.kind))];
    PruneMapUpdate(m0, "type", Some(KindName(e.kind)));
    var m2 := m1["version" := e.version];
    PruneMapUpdate(m1, "version", e.version);
    var m3 := m2["region" := e.region];
    PruneMapUpdate(m2, "region", e.region);
    var m4 := m3["lb_scheme" := e.lbScheme];
    PruneMapUpdate(m3, "lb_scheme", e.lbScheme);
    var m5 := m4["private_ip" := e.privateIp];
    PruneMapUpdate(m4, "private_ip", e.privateIp);
    var m6 := m5["public_ip" := e.publicIp];
    PruneMapUpdate(m5, "public_ip", e.publicIp);
    var m7 := m6["private_dns_name" := e.privateDnsName];
    PruneMapUpdate(m6, "private_dns_name", e.privateDnsName);
    var m8 := m7["public_dns_name" := e.publicDnsName];
    PruneMapUpdate(m7, "public_dns_name", e.publicDnsName);
    var m9 := m8["subnet_id" := e.subnetId];
    PruneMapUpdate(m8, "subnet_id", e.subnetId);
    var m10 := m9["vpc_id" := e.vpcId];
    PruneMapUpdate(m9, "vpc_id", e.vpcId);
    assert ExtrasFields(e) == m10;
  }

  lemma TagPrune(t: Tag)
    ensures PruneMap(TagFields(t)) == TagFields(PruneTag(t))
    ensures Json.Truthy(StrDict(TagFields(t))) <==> HasField(t)
  {
    var d := StrDict(TagFields(t)).d;
    assert t.key.Some? ==> "Key" in d;
    assert t.value.Some? ==> "Value" in d;
  }

  function Pruned(items: seq<Json.Value>): (r: seq<Json.Value>)
    ensures |r| == |items|
  {
    seq(|items|, i requires 0 <= i < |items| => Json.RemoveEmpty(items[i]))
  }

  lemma {:induction false} KeepTags(ts: seq<Tag>)
    ensures Json.Keep(TagValues(ts), Pruned(TagValues(ts))) == TagValues(PruneTags(ts))
  {
    if ts != [] {
      var items := TagValues(ts);
      var head := if HasField(PruneTag(ts[0])) then [PruneTag(ts[0])] else [];
      KeepTagHead(ts);
      TagValuesTail(ts);
      PrunedTail(items);
      KeepTags(ts[1..]);
      assert PruneTags(ts) == head + PruneTags(ts[1..]);
      TagValuesAppend(head, PruneTags(ts[1..]));
    }
  }

  lemma TagValuesTail(ts: seq<Tag>)
    requires ts != []
    ensures TagValues(ts)[1..] == TagValues(ts[1..])
  {
  }

  lemma PrunedTail(items: seq<Json.Value>)
    requires items != []
    ensures Pruned(items)[1..] == Pruned(items[1..])
  {
  }

  lemma TagValuesAppend(a: seq<Tag>, b: seq<Tag>)
    ensures TagValues(a + b) == TagValues(a) + TagValues(b)
  {
  }

  /** The first tag is kept, pruned, exactly when pruning leaves it a field. */
  lemma KeepTagHead(ts: seq<Tag>)
    requires ts != []
    ensures var items := TagValues(ts);
      var p := Pruned(items);
      Json.Keep(items, p) ==
        (if HasField(PruneTag(ts[0])) then [StrDict(TagFields(PruneTag(ts[0])))] else []) + Json.Keep(items[1..], p[1..])
  {
    var t := ts[0];
    var items := TagValues(ts);
    RemoveEmptyStrDict(TagFields(t));
    TagPrune(t);
    TagPrune(PruneTag(t));
    assert items[0] == StrDict(TagFields(t));
    assert Pruned(items)[0] == StrDict(TagFields(PruneTag(t)));
  }

  /** Pruning a two-key root document whose `extras` part stays truthy. */
  lemma RemoveEmptyRoot(tags: Json.Value, extras: Json.Value)
    requires tags.List? && Json.RemoveEmpty(tags).List?
    requires Json.Truthy(extras) && Json.Truthy(Json.RemoveEmpty(extras))
    ensures Json.RemoveEmpty(Json.Dict(map["tags" := tags, "extras" := extras])) ==
      var kept := map["extras" := Json.RemoveEmpty(extras)];
      if Json.RemoveEmpty(tags).items == [] then Json.Dict(kept)
      else Json.Dict(kept["tags" := Json.RemoveEmpty(tags)])
  {
    var v := Json.Dict(map["tags" := tags, "extras" := extras]);
    var r := Json.RemoveEmpty(v).d;
    var want := if Json.RemoveEmpty(tags).items == [] then map["extras" := Json.RemoveEmpty(extras)]
      else map["extras" := Json.RemoveEmpty(extras), "tags" := Json.RemoveEmpty(tags)];
    Json.KeptEntries(v, "tags");
    Json.KeptEntries(v, "extras");
    forall k | k in r ensures k in want && r[k] == want[k] {
      Json.KeptEntries(v, k);
    }
    assert r.Keys == want.Keys;
  }

  /** Pruning the in-memory document gives the stored document of the pruned asset. */
  lemma PruneAssetIsRemoveEmpty(a: Asset)
    ensures Json.RemoveEmpty(InMemory(a)) == Stored(PruneAsset(a))
  {
    var tags := Json.List(TagValues(a.tags));
    var fields := ExtrasFields(a.extras);
    RemoveEmptyStrDict(fields);
    ExtrasPrune(a.extras);
    KeepTags(a.tags);
    assert Json.RemoveEmpty(tags) == Json.List(TagValues(PruneTags(a.tags)));
    var pe := StrDict(ExtrasFields(PruneExtras(a.extras)));
    assert "type" in pe.d && "type" in StrDict(fields).d;
    RemoveEmptyRoot(tags, StrDict(fields));
  }

  /** A stored snapshot leaves no "" field behind, so storing it again changes nothing. */
  lemma PruneAssetIdempotent(a: Asset)
    ensures PruneAsset(PruneAsset(a)) == PruneAsset(a)
  {
    PruneTagsIdempotent(a.tags);
  }

  lemma {:induction false} PruneTagsIdempotent(ts: seq<Tag>)
    ensures PruneTags(PruneTags(ts)) == PruneTags(ts)
  {
    if ts != [] {
      PruneTagsIdempotent(ts[1..]);
      if HasField(PruneTag(ts[0])) {
        var r := PruneTags(ts);
        assert r[0] == PruneTag(ts[0]) && r[1..] == PruneTags(ts[1..]);
        assert PruneTag(r[0]) == r[0];
      }
    }
  }

  /** Pruning leaves a tag list as it is exactly when every tag in it is clean. */
  lemma {:induction false} PruneTagsFixed(ts: seq<Tag>)
    ensures PruneTags(ts) == ts <==> forall i :: 0 <= i < |ts| ==> CleanTag(ts[i])
  {
    if ts != [] && forall i :: 0 <= i < |ts| ==> CleanTag(ts[i]) {
      assert forall i :: 0 <= i < |ts[1..]| ==> ts[1..][i] == ts[i + 1];
      PruneTagsFixed(ts[1..]);
      assert PruneTag(ts[0]) == ts[0];
      assert ts == [ts[0]] + ts[1..];
    }
  }

  /**
   * Storing an asset keeps every field as it is exactly when no field holds "" and no
   * tag is empty; otherwise the stored snapshot differs from what the create used.
   */
  lemma PruneAssetFixed(a: Asset)
    ensures PruneAsset(a) == a <==> Unpruned(a)
  {
    PruneTagsFixed(a.tags);
  }
}
