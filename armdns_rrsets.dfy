/**
 * A zone's record-set collection (rrsets.go): listing, lookup by name, new
 * record sets and new changesets. A public zone's listing drains a pager; a
 * private zone's listing is a single list call whose first page of values is
 * used. List responses are parameters.
 */
module AzureDnsRrsets {
  import opened Wrappers
  import opened AzureDns
  import opened AzureDnsZone
  import opened AzureDnsRrset
  import opened CloudBackend
  import opened AzureDnsChangeset

  /** A listed SDK record set as the facade's record set: tagged with the zone's service and bound to this collection. */
  function Wrap(rrsets: ResourceRecordSets, v: RecordSetImpl): (r: ResourceRecordSet)
  {
    if rrsets.zone.IsPublic() then ResourceRecordSet(v, EmptyRecordSetImpl, PublicZoneType, rrsets)
    else ResourceRecordSet(EmptyRecordSetImpl, v, PrivateZoneType, rrsets)
  }

  function WrapAll(rrsets: ResourceRecordSets, vs: seq<RecordSetImpl>): seq<ResourceRecordSet>
  {
    seq(|vs|, i requires 0 <= i < |vs| => Wrap(rrsets, vs[i]))
  }

  /** The entries of `vs` that `keep` accepts, in order. */
  function Filter(vs: seq<RecordSetImpl>, keep: RecordSetImpl -> bool): seq<RecordSetImpl>
  {
    if |vs| == 0 then []
    else Filter(vs[..|vs| - 1], keep) + (if keep(vs[|vs| - 1]) then [vs[|vs| - 1]] else [])
  }

  /** What the list calls return: the drained pager for a public zone, the single list result otherwise. */
  function Listing(rrsets: ResourceRecordSets, publicPages: seq<Result<seq<RecordSetImpl>, CloudError>>, privateList: Result<seq<RecordSetImpl>, CloudError>): Result<seq<RecordSetImpl>, CloudError>
  {
    if rrsets.zone.IsPublic() then Drain(publicPages) else privateList
  }

  /** The wrapped entries of the listing that `keep` accepts, or the listing's error. */
  function Selected(rrsets: ResourceRecordSets, publicPages: seq<Result<seq<RecordSetImpl>, CloudError>>, privateList: Result<seq<RecordSetImpl>, CloudError>, keep: RecordSetImpl -> bool): Result<seq<ResourceRecordSet>, CloudError>
  {
    match Listing(rrsets, publicPages, privateList)
    case Failure(e) => Failure(e)
    case Success(vs) => Success(WrapAll(rrsets, Filter(vs, keep)))
  }

  /** What `List` returns: every listed entry, wrapped, or the listing's error. */
  function Listed(rrsets: ResourceRecordSets, publicPages: seq<Result<seq<RecordSetImpl>, CloudError>>, privateList: Result<seq<RecordSetImpl>, CloudError>): Result<seq<ResourceRecordSet>, CloudError>
  {
    match Listing(rrsets, publicPages, privateList)
    case Failure(e) => Failure(e)
    case Success(vs) => Success(WrapAll(rrsets, vs))
  }

  /**
   * `v.Name == &name` compares the listed entry's name pointer with the
   * address of `Get`'s own parameter, which no SDK value can hold: the test
   * is false for every entry.
   */
  function NameAddressMatches(v: RecordSetImpl, name: string): (b: bool)
    ensures !b
  {
    false
  }

  /** The comparison `Get` evidently means: the entry's name is the one asked for. */
  function NameMatches(v: RecordSetImpl, name: string): (b: bool)
    ensures b <==> v.name == Some(name)
  {
    v.name == Some(name)
  }

  /** Wrapping commutes with appending one entry. */
  lemma WrapAllSnoc(rrsets: ResourceRecordSets, vs: seq<RecordSetImpl>, v: RecordSetImpl)
    ensures WrapAll(rrsets, vs + [v]) == WrapAll(rrsets, vs) + [Wrap(rrsets, v)]
  {
  }

  /**
   * One listed page: appends the wrapped entries of `values` that `keep`
   * accepts to `list`, which holds those of the entries listed before.
   */
  method AppendKept(rrsets: ResourceRecordSets, ghost before: seq<RecordSetImpl>, list: seq<ResourceRecordSet>, values: seq<RecordSetImpl>, keep: RecordSetImpl -> bool)
    returns (out: seq<ResourceRecordSet>)
    requires list == WrapAll(rrsets, Filter(before, keep))
    ensures out == WrapAll(rrsets, Filter(before + values, keep))
  {
    out := list;
    var j := 0;
    assert before + values[..0] == before;
    while j < |values|
      invariant 0 <= j <= |values|
      invariant out == WrapAll(rrsets, Filter(before + values[..j], keep))
    {
      ghost var seen := before + values[..j];
      assert (before + values[..j + 1])[..|seen|] == seen;
      assert before + values[..j + 1] == seen + [values[j]];
      if keep(values[j]) {
        WrapAllSnoc(rrsets, Filter(seen, keep), values[j]);
        out := out + [Wrap(rrsets, values[j])];
      }
      j := j + 1;
    }
    assert values[..j] == values;
  }

  /** The listing loop shared by `List` and `Get`: drains the pages, wrapping each accepted entry. */
  method Collect(rrsets: ResourceRecordSets, publicPages: seq<Result<seq<RecordSetImpl>, CloudError>>, privateList: Result<seq<RecordSetImpl>, CloudError>, keep: RecordSetImpl -> bool)
    returns (r: Result<seq<ResourceRecordSet>, CloudError>)
    requires rrsets.zone.HasName() && rrsets.RoutedClient().Some?
    ensures r == Selected(rrsets, publicPages, privateList, keep)
  {
    var list: seq<ResourceRecordSet> := [];
    if rrsets.zone.IsPublic() {
      ghost var acc: seq<RecordSetImpl> := [];
      var p := 0;
      while p < |publicPages|
        invariant 0 <= p <= |publicPages|
        invariant Drain(publicPages[..p]) == Success(acc)
        invariant list == WrapAll(rrsets, Filter(acc, keep))
      {
        assert publicPages[..p + 1][..p] == publicPages[..p];
        match publicPages[p]
        case Failure(e) =>
          DrainFailureSticks(publicPages, p + 1);
          return Failure(e);
        case Success(page) =>
          list := AppendKept(rrsets, acc, list, page, keep);
          acc := acc + page;
          p := p + 1;
      }
      assert publicPages[..p] == publicPages;
      return Success(list);
    }
    match privateList
    case Failure(e) =>
      return Failure(e);
    case Success(values) =>
      assert [] + values == values;
      list := AppendKept(rrsets, [], list, values, keep);
      return Success(list);
  }

  /** Keeping every entry filters nothing out. */
  lemma {:induction false} FilterAll(vs: seq<RecordSetImpl>)
    ensures Filter(vs, _ => true) == vs
  {
    if |vs| > 0 {
      FilterAll(vs[..|vs| - 1]);
      assert vs[..|vs| - 1] + [vs[|vs| - 1]] == vs;
    }
  }

  /** Every listed record set, wrapped in listing order. */
  method List(rrsets: ResourceRecordSets, publicPages: seq<Result<seq<RecordSetImpl>, CloudError>>, privateList: Result<seq<RecordSetImpl>, CloudError>)
    returns (r: Result<seq<ResourceRecordSet>, CloudError>)
    requires rrsets.zone.HasName() && rrsets.RoutedClient().Some?
    ensures r == Listed(rrsets, publicPages, privateList)
  {
    r := Collect(rrsets, publicPages, privateList, _ => true);
    match Listing(rrsets, publicPages, privateList)
    case Failure(_) =>
    case Success(vs) => FilterAll(vs);
  }

  /** The listed record sets whose name pointer is the address of `name`: none. */
  method Get(rrsets: ResourceRecordSets, name: string, publicPages: seq<Result<seq<RecordSetImpl>, CloudError>>, privateList: Result<seq<RecordSetImpl>, CloudError>)
    returns (r: Result<seq<ResourceRecordSet>, CloudError>)
    requires rrsets.zone.HasName() && rrsets.RoutedClient().Some?
    ensures r == Selected(rrsets, publicPages, privateList, v => NameAddressMatches(v, name))
  {
    r := Collect(rrsets, publicPages, privateList, v => NameAddressMatches(v, name));
  }

  /** The listed record sets named `name`, in listing order. */
  method GetByName(rrsets: ResourceRecordSets, name: string, publicPages: seq<Result<seq<RecordSetImpl>, CloudError>>, privateList: Result<seq<RecordSetImpl>, CloudError>)
    returns (r: Result<seq<ResourceRecordSet>, CloudError>)
    requires rrsets.zone.HasName() && rrsets.RoutedClient().Some?
    ensures r == Selected(rrsets, publicPages, privateList, v => NameMatches(v, name))
  {
    r := Collect(rrsets, publicPages, privateList, v => NameMatches(v, name));
  }

  /** An entry passes the filter iff it was listed and is accepted. */
  lemma {:induction false} FilterKeepsExactly(vs: seq<RecordSetImpl>, keep: RecordSetImpl -> bool, x: RecordSetImpl)
    ensures x in Filter(vs, keep) <==> x in vs && keep(x)
  {
    if |vs| > 0 {
      var init := vs[..|vs| - 1];
      FilterKeepsExactly(init, keep, x);
      assert vs == init + [vs[|vs| - 1]];
    }
  }

  /** A filter that accepts nothing yields nothing. */
  lemma {:induction false} FilterNone(vs: seq<RecordSetImpl>, name: string)
    ensures Filter(vs, v => NameAddressMatches(v, name)) == []
  {
    if |vs| > 0 {
      FilterNone(vs[..|vs| - 1], name);
    }
  }

  /** On a public zone, a pager whose pages all succeed lists every page's entries, in page order. */
  lemma ListConcatenatesPages(rrsets: ResourceRecordSets, values: seq<seq<RecordSetImpl>>, privateList: Result<seq<RecordSetImpl>, CloudError>)
    requires rrsets.zone.IsPublic()
    ensures Listed(rrsets, Pages(values), privateList) == Success(WrapAll(rrsets, Concat(values)))
  {
    DrainConcatenates(values);
  }

  /** `List` fails iff some public page fails (public zone) or the private list call fails (otherwise), with the private call's own error. */
  lemma ListFailsIffListingFails(rrsets: ResourceRecordSets, publicPages: seq<Result<seq<RecordSetImpl>, CloudError>>, privateList: Result<seq<RecordSetImpl>, CloudError>)
    ensures rrsets.zone.IsPublic() ==>
      (Listed(rrsets, publicPages, privateList).Failure? <==> exists j :: 0 <= j < |publicPages| && publicPages[j].Failure?)
    ensures !rrsets.zone.IsPublic() && privateList.Failure? ==> Listed(rrsets, publicPages, privateList) == Failure(privateList.error)
    ensures !rrsets.zone.IsPublic() && privateList.Success? ==> Listed(rrsets, publicPages, privateList).Success?
  {
    DrainSucceedsIffNoPageFails(publicPages);
  }

  /**
   * Each listed entry is the listed SDK value, tagged `"public"` iff the zone
   * is public (`"private"` otherwise) and bound to this collection.
   */
  lemma ListTagsAndBinds(rrsets: ResourceRecordSets, publicPages: seq<Result<seq<RecordSetImpl>, CloudError>>, privateList: Result<seq<RecordSetImpl>, CloudError>)
    ensures var r := Listed(rrsets, publicPages, privateList);
      r.Success? ==>
        && r.value == WrapAll(rrsets, Listing(rrsets, publicPages, privateList).value)
        && |r.value| == |Listing(rrsets, publicPages, privateList).value|
        && forall i :: 0 <= i < |r.value| ==>
             && r.value[i].recordSets == rrsets
             && r.value[i].Active() == Listing(rrsets, publicPages, privateList).value[i]
             && r.value[i].zoneType == (if rrsets.zone.IsPublic() then PublicZoneType else PrivateZoneType)
  {
  }

  /** `Get` as written never finds anything: it returns an empty list or the listing's error. */
  lemma GetNeverFinds(rrsets: ResourceRecordSets, name: string, publicPages: seq<Result<seq<RecordSetImpl>, CloudError>>, privateList: Result<seq<RecordSetImpl>, CloudError>)
    ensures var r := Selected(rrsets, publicPages, privateList, v => NameAddressMatches(v, name));
      r.Success? ==> r.value == []
    ensures Selected(rrsets, publicPages, privateList, v => NameAddressMatches(v, name)).Failure?
        <==> Listed(rrsets, publicPages, privateList).Failure?
  {
    match Listing(rrsets, publicPages, privateList)
    case Failure(_) =>
    case Success(vs) => FilterNone(vs, name);
  }

  /** By name, a listed entry is returned iff it is named `name`; every returned one is listed and so named. */
  lemma GetByNameSelectsNamed(rrsets: ResourceRecordSets, name: string, publicPages: seq<Result<seq<RecordSetImpl>, CloudError>>, privateList: Result<seq<RecordSetImpl>, CloudError>, v: RecordSetImpl)
    requires Listing(rrsets, publicPages, privateList).Success?
    ensures Selected(rrsets, publicPages, privateList, x => NameMatches(x, name)).Success?
    ensures var listed := Listing(rrsets, publicPages, privateList).value;
      (Wrap(rrsets, v) in Selected(rrsets, publicPages, privateList, x => NameMatches(x, name)).value
       <==> v in listed && v.name == Some(name))
  {
    var listed := Listing(rrsets, publicPages, privateList).value;
    var kept := Filter(listed, x => NameMatches(x, name));
    FilterKeepsExactly(listed, x => NameMatches(x, name), v);
    if Wrap(rrsets, v) in WrapAll(rrsets, kept) {
      var i :| 0 <= i < |kept| && WrapAll(rrsets, kept)[i] == Wrap(rrsets, v);
      assert Wrap(rrsets, kept[i]).Active() == kept[i];
      assert kept[i] == v;
    }
    if v in kept {
      var i :| 0 <= i < |kept| && kept[i] == v;
      assert WrapAll(rrsets, kept)[i] == Wrap(rrsets, v);
    }
  }

  /** A new changeset bound to this collection's zone, with nothing queued. */
  method StartChangeset(rrsets: ResourceRecordSets) returns (c: ResourceRecordChangeset)
    ensures fresh(c)
    ensures c.zone == rrsets.zone && c.rrsets == rrsets
    ensures c.IsEmpty()
  {
    c := new ResourceRecordChangeset(rrsets.zone, rrsets);
  }

  /** Applying a changeset just started, with nothing queued, sends nothing and succeeds, even in a zone without a name. */
  method ApplyNothingQueued(rrsets: ResourceRecordSets, backend: Backend<DnsCall>) returns (err: Option<CloudError>)
    modifies backend
    ensures err.None? && backend.trace == old(backend.trace)
  {
    var c := StartChangeset(rrsets);
    err := c.Apply(backend);
  }

  /** The record set `New` builds: name, stored type and TTL as given, one A record per address. */
  function NewRecordSet(rrsets: ResourceRecordSets, name: string, rrdatas: seq<string>, ttl: Int64, rrstype: string): ResourceRecordSet
  {
    Wrap(rrsets, RecordSetImpl(Some(name), Some(rrstype), Some(ttl), Some(ARecordsOf(rrdatas))))
  }

  /** Builds a record set of this collection's service, appending one A record per address, each pointing at its own loop variable. */
  method New(rrsets: ResourceRecordSets, name: string, rrdatas: seq<string>, ttl: Int64, rrstype: string) returns (r: ResourceRecordSet)
    ensures r == NewRecordSet(rrsets, name, rrdatas, ttl, rrstype)
  {
    var arecords := RangeARecords(rrdatas, true);
    r := Wrap(rrsets, RecordSetImpl(Some(name), Some(rrstype), Some(ttl), Some(arecords)));
  }

  /**
   * `New` then `Name`, `Ttl`, `Rrdatas` and `Type` give back what was passed
   * (the type read back is always `"A"`); the tag is `"public"` iff the zone
   * is public, `"private"` otherwise, and the record set is bound to this
   * collection.
   */
  lemma NewRoundTrip(rrsets: ResourceRecordSets, name: string, rrdatas: seq<string>, ttl: Int64, rrstype: string)
    ensures var r := NewRecordSet(rrsets, name, rrdatas, ttl, rrstype);
      && r.WellFormed()
      && r.Name() == name
      && r.Ttl() == ttl
      && r.RrdataValues() == rrdatas
      && r.Type() == "A" && r.Active().recordType == Some(rrstype)
      && (r.IsPublic() <==> rrsets.zone.IsPublic())
      && r.zoneType == (if rrsets.zone.IsPublic() then PublicZoneType else PrivateZoneType)
      && r.recordSets == rrsets
  {
    var r := NewRecordSet(rrsets, name, rrdatas, ttl, rrstype);
    assert r.RrdataValues() == rrdatas;
  }

  /** With a shared loop variable, two distinct addresses come back as the last one twice. */
  lemma SharedVariableLosesAddresses()
    ensures SharedVariableARecords(["198.51.100.7", "198.51.100.8"]) == [ARecord(Some("198.51.100.8")), ARecord(Some("198.51.100.8"))]
    ensures ARecordsOf(["198.51.100.7", "198.51.100.8"]) == [ARecord(Some("198.51.100.7")), ARecord(Some("198.51.100.8"))]
  {
  }
}
