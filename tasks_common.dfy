/**
 * What the Azure reconciliation tasks share: their field types, the
 * first-match scan every `Find` runs over a listing, the `CheckChanges`
 * error values, and the resource-ID path format.
 */
module AzureTaskCommon {
  import opened Wrappers
  import Strings

  /** A Go `map[string]*string`: a tag value may be nil. A nil map is the empty map. */
  type Tags = map<string, Option<string>>

  /** A task's lifecycle, a named string. */
  type Lifecycle = string

  /** The resource-group task, of which the model reads only the name. */
  datatype ResourceGroup = ResourceGroup(name: Option<string>)

  /** The errors a `CheckChanges` returns. */
  datatype FieldError = RequiredField(field: string) | CannotChangeField(field: string)

  /** A resource as a cloud listing returns it: name, ID and tags, each possibly nil. */
  datatype CloudResource = CloudResource(name: Option<string>, id: Option<string>, tags: Tags)

  /** The group's name, which renders and lookups dereference. */
  predicate HasGroupName(rg: Option<ResourceGroup>)
  {
    rg.Some? && rg.value.name.Some?
  }

  /**
   * The scan compares `*v.Name` for each entry until the first match, and
   * logs `*found.ID` of the match: every entry it reaches has a name, and the
   * match has an ID.
   */
  predicate ScanSafe(entries: seq<CloudResource>, name: string)
  {
    |entries| == 0 ||
    (entries[0].name.Some? &&
     if entries[0].name.value == name then entries[0].id.Some? else ScanSafe(entries[1..], name))
  }

  /** The position of the first entry named `name`, if any. */
  function FirstNamed(entries: seq<CloudResource>, name: string): (r: Option<nat>)
    ensures r.Some? ==> r.value < |entries| && entries[r.value].name == Some(name)
    ensures r.Some? ==> forall j :: 0 <= j < r.value ==> entries[j].name != Some(name)
    ensures r.None? <==> forall j :: 0 <= j < |entries| ==> entries[j].name != Some(name)
  {
    if |entries| == 0 then None
    else if entries[0].name == Some(name) then Some(0)
    else match FirstNamed(entries[1..], name)
      case None => None
      case Some(i) => Some(i + 1)
  }

  /**
   * What the scan of a `Find` may dereference: the desired name, once there
   * is an entry to compare, and the name of each entry it reaches.
   */
  predicate Scannable(entries: seq<CloudResource>, name: Option<string>)
  {
    |entries| == 0 || (name.Some? && ScanSafe(entries, name.value))
  }

  /** The entry a `Find` picks: the first one carrying the desired name. */
  function FoundAt(entries: seq<CloudResource>, name: Option<string>): (r: Option<nat>)
    ensures r.Some? ==> name.Some? && r == FirstNamed(entries, name.value)
    ensures r.None? <==> forall j :: 0 <= j < |entries| ==> entries[j].name != name || name.None?
  {
    if name.None? then None else FirstNamed(entries, name.value)
  }

  /** An entry carrying the name, with none before it, is the first such entry. */
  lemma {:induction false} FirstNamedAt(entries: seq<CloudResource>, name: string, i: nat)
    requires i < |entries| && entries[i].name == Some(name)
    requires forall j :: 0 <= j < i ==> entries[j].name != Some(name)
    ensures FirstNamed(entries, name) == Some(i)
  {
    if i > 0 {
      assert entries[0].name != Some(name);
      var rest := entries[1..];
      assert forall j :: 0 <= j < i - 1 ==> rest[j] == entries[j + 1];
      FirstNamedAt(rest, name, i - 1);
    }
  }

  /** The scan loop of every `Find`: stops at the first entry carrying the desired name. */
  method FindFirst(entries: seq<CloudResource>, name: Option<string>) returns (found: Option<nat>)
    requires Scannable(entries, name)
    ensures found == FoundAt(entries, name)
  {
    found := None;
    if |entries| == 0 {
      return;
    }
    var want := name.value;
    var i := 0;
    while i < |entries|
      invariant 0 <= i <= |entries|
      invariant ScanSafe(entries[i..], want)
      invariant forall j :: 0 <= j < i ==> entries[j].name != Some(want)
    {
      assert entries[i..][0] == entries[i];
      if entries[i].name.value == want {
        FirstNamedAt(entries, want, i);
        found := Some(i);
        return;
      }
      assert entries[i..][1..] == entries[i + 1..];
      i := i + 1;
    }
  }

  /**
   * The name rule of the security-group and DNS-zone tasks: a new resource
   * needs a name, an existing one may not be renamed.
   */
  function CheckNameChanges(actualExists: bool, desiredName: Option<string>, changedName: Option<string>): (r: Option<FieldError>)
    ensures r == Some(RequiredField("Name")) <==> !actualExists && desiredName.None?
    ensures r == Some(CannotChangeField("Name")) <==> actualExists && changedName.Some?
    ensures r.None? <==> (!actualExists && desiredName.Some?) || (actualExists && changedName.None?)
  {
    if !actualExists then
      if desiredName.None? then Some(RequiredField("Name")) else None
    else if changedName.Some? then Some(CannotChangeField("Name"))
    else None
  }

  /** The segments of an Azure resource ID under the `Microsoft.Network` provider, in path order. */
  function NetworkResourceSegments(subscriptionId: string, resourceGroup: string, kind: string, name: string): seq<string>
  {
    ["", "subscriptions", subscriptionId, "resourceGroups", resourceGroup, "providers", "Microsoft.Network", kind, name]
  }

  /** An Azure resource ID under the `Microsoft.Network` provider: its segments joined by `/`. */
  function NetworkResourceId(subscriptionId: string, resourceGroup: string, kind: string, name: string): string
  {
    Strings.Join(NetworkResourceSegments(subscriptionId, resourceGroup, kind, name), '/')
  }

  /** A slash-free string: one path segment. */
  predicate IsSegment(s: string)
  {
    '/' !in s
  }

  /** The segments, as one segment prepended at a time. */
  lemma SegmentsPrepended(subscriptionId: string, resourceGroup: string, kind: string, name: string)
    ensures [""] + (["subscriptions"] + ([subscriptionId] + (["resourceGroups"] + ([resourceGroup] + (["providers"] +
      (["Microsoft.Network"] + ([kind] + [name])))))))
      == NetworkResourceSegments(subscriptionId, resourceGroup, kind, name)
  {
  }

  /** The ID from the resource group on. */
  lemma TailFormat(resourceGroup: string, kind: string, name: string)
    ensures Strings.Join([resourceGroup] + (["providers"] + (["Microsoft.Network"] + ([kind] + [name]))), '/')
         == resourceGroup + "/" + ("providers" + "/" + ("Microsoft.Network" + "/" + (kind + "/" + name)))
  {
    Strings.JoinCons(kind, [name], '/');
    Strings.JoinCons("Microsoft.Network", [kind] + [name], '/');
    Strings.JoinCons("providers", ["Microsoft.Network"] + ([kind] + [name]), '/');
    Strings.JoinCons(resourceGroup, ["providers"] + (["Microsoft.Network"] + ([kind] + [name])), '/');
  }

  /** The ID up to the resource group, in front of an already joined tail. */
  lemma HeadFormat(subscriptionId: string, q4: seq<string>, r4: string)
    requires |q4| >= 1 && Strings.Join(q4, '/') == r4
    ensures Strings.Join([""] + (["subscriptions"] + ([subscriptionId] + (["resourceGroups"] + q4))), '/')
         == "" + "/" + ("subscriptions" + "/" + (subscriptionId + "/" + ("resourceGroups" + "/" + r4)))
  {
    Strings.JoinCons("resourceGroups", q4, '/');
    Strings.JoinCons(subscriptionId, ["resourceGroups"] + q4, '/');
    Strings.JoinCons("subscriptions", [subscriptionId] + (["resourceGroups"] + q4), '/');
    Strings.JoinCons("", ["subscriptions"] + ([subscriptionId] + (["resourceGroups"] + q4)), '/');
  }

  /** Written out, the ID is the `fmt.Sprintf` format `/subscriptions/%s/resourceGroups/%s/providers/Microsoft.Network/<kind>/%s`. */
  lemma NetworkResourceIdFormat(subscriptionId: string, resourceGroup: string, kind: string, name: string)
    ensures NetworkResourceId(subscriptionId, resourceGroup, kind, name)
         == "/" + "subscriptions" + "/" + subscriptionId + "/" + "resourceGroups" + "/" + resourceGroup +
            "/" + "providers" + "/" + "Microsoft.Network" + "/" + kind + "/" + name
  {
    var q4 := [resourceGroup] + (["providers"] + (["Microsoft.Network"] + ([kind] + [name])));
    var r4 := resourceGroup + "/" + ("providers" + "/" + ("Microsoft.Network" + "/" + (kind + "/" + name)));
    TailFormat(resourceGroup, kind, name);
    HeadFormat(subscriptionId, q4, r4);
    SegmentsPrepended(subscriptionId, resourceGroup, kind, name);
  }

  /** Splitting a resource ID at `/` recovers its segments, when each supplied part is one segment. */
  lemma NetworkResourceIdSplits(subscriptionId: string, resourceGroup: string, kind: string, name: string)
    requires IsSegment(subscriptionId) && IsSegment(resourceGroup) && IsSegment(kind) && IsSegment(name)
    ensures Strings.Split(NetworkResourceId(subscriptionId, resourceGroup, kind, name), '/')
         == NetworkResourceSegments(subscriptionId, resourceGroup, kind, name)
  {
    var parts := NetworkResourceSegments(subscriptionId, resourceGroup, kind, name);
    assert IsSegment("subscriptions") && IsSegment("resourceGroups") && IsSegment("providers") && IsSegment("Microsoft.Network");
    Strings.SplitJoin(parts, '/');
  }

  /** Two resource IDs built from one-segment parts are equal only when the parts are. */
  lemma NetworkResourceIdInjective(s1: string, g1: string, k1: string, n1: string, s2: string, g2: string, k2: string, n2: string)
    requires IsSegment(s1) && IsSegment(g1) && IsSegment(k1) && IsSegment(n1)
    requires IsSegment(s2) && IsSegment(g2) && IsSegment(k2) && IsSegment(n2)
    requires NetworkResourceId(s1, g1, k1, n1) == NetworkResourceId(s2, g2, k2, n2)
    ensures s1 == s2 && g1 == g2 && k1 == k2 && n1 == n2
  {
    NetworkResourceIdSplits(s1, g1, k1, n1);
    NetworkResourceIdSplits(s2, g2, k2, n2);
    assert NetworkResourceSegments(s1, g1, k1, n1)[2] == s1 && NetworkResourceSegments(s2, g2, k2, n2)[2] == s2;
  }
}
