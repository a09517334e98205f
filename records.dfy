/**
 * The change batches `create_resource_record` and `delete_resource_record` send, and
 * the string arithmetic that feeds them: the host label of a DNS name and the
 * host/suffix split of a CNAME tag value.
 */
module Records {
  import opened Wrappers
  import opened Strings

  datatype Action = Upsert | Delete

  datatype RType = A | PTR | CNAME

  /** A `ResourceRecordSet` with its `ResourceRecords` values. */
  datatype RecordSet = RecordSet(name: string, rtype: RType, ttl: nat, values: seq<string>)

  /** A change batch holding its single change. */
  datatype ChangeBatch = ChangeBatch(comment: string, action: Action, record: RecordSet)

  const Ttl: nat := 60
  const Comment: string := "Updated by Lambda DDNS"

  /** `s` with a '.' appended unless it already ends in one. */
  function DotTerminated(s: string): (r: string)
    requires s != ""
    ensures r != "" && r[|r| - 1] == '.'
    ensures s <= r && |r| <= |s| + 1
  {
    if s[|s| - 1] != '.' then s + "." else s
  }

  /** The record name: the host with a dot forced on, then the zone name. `host_name[-1]` raises on "". */
  function RecordName(host: string, zoneName: string): (r: Res<string>)
    ensures r.Raise? <==> host == ""
    ensures r.Raise? ==> r.exc == IndexError
    ensures r.Ok? ==> host <= r.value && EndsWith(r.value, zoneName)
    ensures r.Ok? ==> |zoneName| < |r.value| <= |host| + 1 + |zoneName| && r.value[|r.value| - |zoneName| - 1] == '.'
  {
    if host == "" then Raise(IndexError) else Ok(DotTerminated(host) + zoneName)
  }

  lemma RecordNameCases(host: string, zoneName: string)
    requires host != ""
    ensures host[|host| - 1] != '.' ==> RecordName(host, zoneName) == Ok(host + "." + zoneName)
    ensures host[|host| - 1] == '.' ==> RecordName(host, zoneName) == Ok(host + zoneName)
  {
  }

  /** The change batch one record call sends. */
  function Change(action: Action, host: string, zoneName: string, rtype: RType, value: string): (r: Res<ChangeBatch>)
    ensures r.Raise? <==> host == ""
    ensures r.Ok? ==> r.value.action == action && r.value.comment == Comment
    ensures r.Ok? ==> r.value.record.rtype == rtype && r.value.record.ttl == 60 && r.value.record.values == [value]
    ensures r.Ok? ==> Ok(r.value.record.name) == RecordName(host, zoneName)
  {
    match RecordName(host, zoneName)
    case Raise(e) => Raise(e)
    case Ok(name) => Ok(ChangeBatch(Comment, action, RecordSet(name, rtype, Ttl, [value])))
  }

  /** The names of the running example: a host label gains a dot, a reversed address already has one. */
  lemma ExampleRecordNames()
    ensures RecordName("host", "corp.internal.") == Ok("host.corp.internal.")
    ensures RecordName("55.1.0.10.", "in-addr.arpa") == Ok("55.1.0.10.in-addr.arpa")
  {
    ExampleHostName();
    ExamplePointerName();
  }

  lemma ExampleHostName()
    ensures RecordName("host", "corp.internal.") == Ok("host.corp.internal.")
  {
    var host := "host";
    assert host[3] == 't';
    assert DotTerminated(host) == host + ".";
    assert host + "." + "corp.internal." == "host.corp.internal.";
  }

  lemma ExamplePointerName()
    ensures RecordName("55.1.0.10.", "in-addr.arpa") == Ok("55.1.0.10.in-addr.arpa")
  {
    var reversed := "55.1.0.10.";
    assert reversed[9] == '.';
    assert DotTerminated(reversed) == reversed;
    assert reversed + "in-addr.arpa" == "55.1.0.10.in-addr.arpa";
  }

  /** A delete built from the same arguments as a create targets exactly the record the create wrote. */
  lemma CreateDeleteSameRecord(host: string, zoneName: string, rtype: RType, value: string)
    ensures Change(Upsert, host, zoneName, rtype, value).Raise? == Change(Delete, host, zoneName, rtype, value).Raise?
    ensures Change(Upsert, host, zoneName, rtype, value).Ok? ==>
      Change(Delete, host, zoneName, rtype, value).value ==
      Change(Upsert, host, zoneName, rtype, value).value.(action := Delete)
  {
  }

  /** `dns_name.split('.')[0]`: the host label of a DNS name. */
  function HostOf(dnsName: string): (r: string)
    ensures r <= dnsName && '.' !in r
  {
    var i := Find(dnsName, '.');
    if i == -1 then dnsName else dnsName[..i]
  }

  lemma HostOfIsFirstPiece(dnsName: string)
    ensures HostOf(dnsName) == Split(dnsName, '.')[0]
  {
  }

  lemma HostOfLabel(h: string, rest: string)
    requires '.' !in h
    ensures HostOf(h + "." + rest) == h
  {
    FindFirst(h, '.', rest);
    assert (h + "." + rest)[..|h|] == h;
  }

  /**
   * The CNAME split on the normalised value: the host is the first label, the suffix is
   * what follows the first dot (the whole value when there is none), forced to end in
   * '.'; an empty suffix makes `cname_domain_suffix[-1]` raise IndexError.
   */
  function CnameSplit(cname: string): (r: Res<(string, string)>)
    ensures r.Raise? ==> r.exc == IndexError
    ensures r.Ok? ==> r.value.0 == HostOf(cname)
    ensures r.Ok? ==> r.value.1 != "" && r.value.1[|r.value.1| - 1] == '.'
  {
    var suffix := cname[Find(cname, '.') + 1..];
    if suffix == "" then Raise(IndexError) else Ok((HostOf(cname), DotTerminated(suffix)))
  }

  /** A value with a dot: the suffix is the rest of the value after its first label. */
  lemma CnameSplitDotted(h: string, rest: string)
    requires '.' !in h && rest != ""
    ensures CnameSplit(h + "." + rest) == Ok((h, DotTerminated(rest)))
  {
    var c := h + "." + rest;
    FindFirst(h, '.', rest);
    assert c[|h| + 1..] == rest;
    HostOfLabel(h, rest);
  }

  /** A value whose only dot ends it, like "foo.", leaves an empty suffix and raises. */
  lemma CnameSplitEmptySuffix(h: string)
    requires '.' !in h
    ensures CnameSplit(h + ".") == Raise(IndexError)
  {
    FindFirst(h, '.', "");
    assert h + "." == h + "." + "";
  }

  /** A value without a dot is its own suffix. */
  lemma CnameSplitNoDot(c: string)
    requires '.' !in c && c != ""
    ensures CnameSplit(c) == Ok((c, c + "."))
  {
  }
}
