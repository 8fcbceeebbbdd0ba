/** The provider's view of a zone and its A records, and the choice of the
    record to reconcile: the first one, in the order the provider returned
    them, whose name equals the requested name (main.go:139-145). */
module Records {
  import opened Results

  /** A managed zone: its name and the provider-assigned identifier. */
  datatype Domain = Domain(domainId: int, name: string)

  /** An A record as the provider reports it. */
  datatype Record = Record(domainId: int, resourceId: int, name: string, target: string, ttl: int)

  /** Index of the first record named `name`, if any. */
  function FirstNamed(recs: seq<Record>, name: string): (r: Option<nat>)
    ensures r.Some? ==> r.value < |recs| && recs[r.value].name == name
    ensures r.Some? ==> forall j :: 0 <= j < r.value ==> recs[j].name != name
    ensures r.None? <==> forall j :: 0 <= j < |recs| ==> recs[j].name != name
  {
    if recs == [] then None
    else if recs[0].name == name then Some(0)
    else match FirstNamed(recs[1..], name)
      case None => None
      case Some(i) => Some(i + 1)
  }

  /** The record `main` goes on to reconcile, or none. */
  function Lookup(recs: seq<Record>, name: string): (r: Option<Record>)
    ensures r.None? <==> forall j :: 0 <= j < |recs| ==> recs[j].name != name
    ensures r.Some? ==> r.value.name == name
    ensures r.Some? ==> exists k :: 0 <= k < |recs| && recs[k] == r.value
                                    && forall j :: 0 <= j < k ==> recs[j].name != name
  {
    match FirstNamed(recs, name)
    case None => None
    case Some(i) => Some(recs[i])
  }

  /** The `for ... range recs` loop with its `break` on the first match. */
  method SelectExisting(recs: seq<Record>, name: string) returns (existing: Option<Record>)
    ensures existing == Lookup(recs, name)
  {
    existing := None;
    var i := 0;
    while i < |recs|
      invariant 0 <= i <= |recs|
      invariant existing.None?
      invariant forall j :: 0 <= j < i ==> recs[j].name != name
    {
      if recs[i].name == name {
        existing := Some(recs[i]);
        break;
      }
      i := i + 1;
    }
  }

  /** A record that comes after an earlier one with the same name is never
      chosen; the earliest one of the duplicates or one before it is. */
  lemma LaterDuplicateNeverChosen(recs: seq<Record>, name: string, i: nat, j: nat)
    requires i < j < |recs|
    requires recs[i].name == name && recs[j].name == name
    ensures FirstNamed(recs, name).Some? && FirstNamed(recs, name).value <= i
  {
  }

  /** Names are compared exactly: a record "Home" is not the record "home". */
  lemma NameMatchIsCaseSensitive()
    ensures Lookup([Record(1, 2, "Home", "203.0.113.7", 300)], "home") == None
  {
  }
}
