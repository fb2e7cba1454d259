/**
 * A record set of the Azure DNS provider (rrset.go): one value holding both a
 * public and a private SDK record set, served by whichever the `zoneType`
 * tag selects. Only A records are read.
 */
module AzureDnsRrset {
  import opened Wrappers
  import opened AzureDns
  import opened AzureDnsZone

  /** An A record: a pointer to one IPv4 address string, `None` when nil. */
  datatype ARecord = ARecord(ipv4Address: Option<string>)

  /**
   * The fields of an SDK record set that the facade reads or writes. The
   * A-record list is `None` when it cannot be reached: a public record set
   * without properties, or a private one whose list pointer is nil.
   */
  datatype RecordSetImpl = RecordSetImpl(name: Option<string>, recordType: Option<string>, ttl: Option<Int64>, aRecords: Option<seq<ARecord>>)

  /** A records with one address each, in order: what a loop taking each address's own copy builds. */
  function ARecordsOf(rrdatas: seq<string>): (recs: seq<ARecord>)
  {
    seq(|rrdatas|, i requires 0 <= i < |rrdatas| => ARecord(Some(rrdatas[i])))
  }

  /**
   * The A records a loop builds when all its iterations share one `rrdata`
   * variable (Go before 1.22): every record points at that variable, which
   * ends holding the last address.
   */
  function SharedVariableARecords(rrdatas: seq<string>): (recs: seq<ARecord>)
    ensures |recs| == |rrdatas|
  {
    if |rrdatas| == 0 then []
    else seq(|rrdatas|, _ => ARecord(Some(rrdatas[|rrdatas| - 1])))
  }

  /** The shared variable loses nothing exactly when every address equals the last one. */
  lemma SharedVariableRightIff(rrdatas: seq<string>)
    ensures SharedVariableARecords(rrdatas) == ARecordsOf(rrdatas) <==> forall i :: 0 <= i < |rrdatas| ==> rrdatas[i] == rrdatas[|rrdatas| - 1]
  {
    if SharedVariableARecords(rrdatas) == ARecordsOf(rrdatas) {
      forall i | 0 <= i < |rrdatas| ensures rrdatas[i] == rrdatas[|rrdatas| - 1] {
        assert SharedVariableARecords(rrdatas)[i] == ARecordsOf(rrdatas)[i];
      }
    }
  }

  /** The variable a `range` loop assigns each element to. */
  class LoopVariable {
    var value: string

    constructor (value: string)
      ensures this.value == value
    {
      this.value := value;
    }
  }

  /**
   * The loop `for _, rrdata := range rrdatas`, appending an A record that
   * points at `rrdata`, with the addresses read once the loop is done. With
   * `perIteration` each iteration has a variable of its own (Go 1.22 on);
   * without it one variable is overwritten by every iteration.
   */
  method RangeARecords(rrdatas: seq<string>, perIteration: bool) returns (recs: seq<ARecord>)
    ensures perIteration ==> recs == ARecordsOf(rrdatas)
    ensures !perIteration ==> recs == SharedVariableARecords(rrdatas)
  {
    var shared := new LoopVariable("");
    var pointers: seq<LoopVariable> := [];
    for i := 0 to |rrdatas|
      invariant |pointers| == i
      invariant perIteration ==> forall j :: 0 <= j < i ==> pointers[j].value == rrdatas[j]
      invariant !perIteration ==> forall j :: 0 <= j < i ==> pointers[j] == shared
      invariant !perIteration && 0 < i ==> shared.value == rrdatas[i - 1]
    {
      var rrdata := shared;
      if perIteration {
        rrdata := new LoopVariable(rrdatas[i]);
      } else {
        shared.value := rrdatas[i];
      }
      pointers := pointers + [rrdata];
    }
    recs := seq(|pointers|, i reads pointers requires 0 <= i < |pointers| => ARecord(Some(pointers[i].value)));
  }

  /** An SDK record set left at its zero value. */
  const EmptyRecordSetImpl := RecordSetImpl(None, None, None, None)

  datatype ResourceRecordSet = ResourceRecordSet(publicImpl: RecordSetImpl, privateImpl: RecordSetImpl, zoneType: string, recordSets: ResourceRecordSets)
  {
    predicate IsPublic()
    {
      zoneType == PublicZoneType
    }

    /** The SDK record set the tag selects; every zone type but `"public"` selects the private one. */
    function Active(): RecordSetImpl
    {
      if IsPublic() then publicImpl else privateImpl
    }

    /** `Rrdatas` dereferences the selected A-record list and every address in it. */
    predicate AddressesReadable()
    {
      Active().aRecords.Some? && forall i :: 0 <= i < |Active().aRecords.value| ==> Active().aRecords.value[i].ipv4Address.Some?
    }

    /** `Name`, `Ttl` and `Rrdatas` dereference the selected record set's pointers. */
    predicate WellFormed()
    {
      Active().name.Some? && Active().ttl.Some? && AddressesReadable()
    }

    /** The record set's full name, read from the public SDK value iff the tag is `"public"`. */
    function Name(): (n: string)
      requires Active().name.Some?
      ensures IsPublic() ==> publicImpl.name == Some(n)
      ensures !IsPublic() ==> privateImpl.name == Some(n)
    {
      Active().name.value
    }

    /** The addresses of the selected record set's A records, in stored order. */
    function RrdataValues(): seq<string>
      requires AddressesReadable()
    {
      var recs := Active().aRecords.value;
      seq(|recs|, i requires 0 <= i < |recs| => recs[i].ipv4Address.value)
    }

    /** `Rrdatas` fills a fresh array with one address per stored A record. */
    method Rrdatas() returns (r: seq<string>)
      requires AddressesReadable()
      ensures |r| == |Active().aRecords.value|
      ensures forall i :: 0 <= i < |r| ==> Active().aRecords.value[i].ipv4Address == Some(r[i])
      ensures r == RrdataValues()
    {
      var recs := Active().aRecords.value;
      var result := new string[|recs|];
      for i := 0 to |recs|
        invariant forall j :: 0 <= j < i ==> recs[j].ipv4Address == Some(result[j])
      {
        result[i] := recs[i].ipv4Address.value;
      }
      r := result[..];
    }

    /** The time-to-live stored in the selected record set. */
    function Ttl(): (t: Int64)
      requires Active().ttl.Some?
      ensures IsPublic() ==> publicImpl.ttl == Some(t)
      ensures !IsPublic() ==> privateImpl.ttl == Some(t)
    {
      Active().ttl.value
    }

    /** The record type: `"A"` for every record set, whatever type is stored. */
    function Type(): (t: string)
      ensures t == "A"
    {
      if IsPublic() then "A" else "A"
    }
  }
}
