/** The create / update / no-op decision of `main` (main.go:146-162), the
    parameter map `UpdateDomainResourceTarget` sends (main.go:38-43), and a
    model of how the provider's record list changes under each write, used to
    show that one run brings the record to the current address. */
module Reconcile {
  import opened Results
  import opened Records
  import Decimal

  /** TTL, in seconds, of a record the updater creates. */
  const CreateTtl: int := 300

  /** The provider API action name of an update. */
  const UpdateAction: string := "domain.resource.update"

  /** The single write a run performs, or none. */
  datatype Action =
    | Create(domainId: int, name: string, target: string, ttl: int)
    | Update(domainId: int, resourceId: int, target: string)
    | NoOp

  /** Decide what to do with the record found under `name` given the text form
      `ipText` of the current public address. */
  function Decide(domain: Domain, existing: Option<Record>, name: string, ipText: string): (a: Action)
    ensures a.Create? <==> existing.None?
    ensures a.Create? ==> a == Create(domain.domainId, name, ipText, CreateTtl)
    ensures a.Update? <==> existing.Some? && existing.value.target != ipText
    ensures a.Update? ==> a == Update(existing.value.domainId, existing.value.resourceId, ipText)
    ensures a.NoOp? <==> existing.Some? && existing.value.target == ipText
  {
    match existing
    case None => Create(domain.domainId, name, ipText, CreateTtl)
    case Some(rec) => if ipText != rec.target then Update(rec.domainId, rec.resourceId, ipText) else NoOp
  }

  /** A raw provider API request: action name and string parameters. */
  datatype Request = Request(apiAction: string, params: map<string, string>)

  /** The request `UpdateDomainResourceTarget` sends. */
  function UpdateRequest(domainId: int, resourceId: int, target: string): (req: Request)
    ensures req.apiAction == UpdateAction
    ensures req.params.Keys == {"DomainID", "ResourceID", "Target"}
    ensures req.params["Target"] == target
  {
    Request(UpdateAction, map[
      "DomainID" := Decimal.Itoa(domainId),
      "ResourceID" := Decimal.Itoa(resourceId),
      "Target" := target])
  }

  /** The provider reads back from the parameter map exactly the identifiers of
      the record being updated (distinct identifier pairs give distinct maps:
      see `UpdateRequestInjective`). */
  lemma UpdateRequestIdentifiesRecord(domainId: int, resourceId: int, target: string)
    ensures Decimal.ReadInt(UpdateRequest(domainId, resourceId, target).params["DomainID"]) == Some(domainId)
    ensures Decimal.ReadInt(UpdateRequest(domainId, resourceId, target).params["ResourceID"]) == Some(resourceId)
  {
    Decimal.ReadIntItoa(domainId);
    Decimal.ReadIntItoa(resourceId);
  }

  lemma UpdateRequestInjective(d1: int, r1: int, t1: string, d2: int, r2: int, t2: string)
    ensures UpdateRequest(d1, r1, t1) == UpdateRequest(d2, r2, t2) <==> d1 == d2 && r1 == r2 && t1 == t2
  {
    if UpdateRequest(d1, r1, t1) == UpdateRequest(d2, r2, t2) {
      UpdateRequestIdentifiesRecord(d1, r1, t1);
      UpdateRequestIdentifiesRecord(d2, r2, t2);
    }
  }

  // ---------------------------------------------------------------------------
  // The provider's record list after a write.

  /** An update rewrites the target of every record carrying the given
      identifiers and leaves every other record as it was. */
  function Retarget(recs: seq<Record>, domainId: int, resourceId: int, target: string): (r: seq<Record>)
    ensures |r| == |recs|
    ensures forall i :: 0 <= i < |r| ==> r[i].name == recs[i].name
    ensures forall i :: 0 <= i < |r| && (recs[i].domainId != domainId || recs[i].resourceId != resourceId)
              ==> r[i] == recs[i]
    ensures forall i :: 0 <= i < |r| && recs[i].domainId == domainId && recs[i].resourceId == resourceId
              ==> r[i] == recs[i].(target := target)
  {
    seq(|recs|, i requires 0 <= i < |recs| =>
      if recs[i].domainId == domainId && recs[i].resourceId == resourceId
      then recs[i].(target := target) else recs[i])
  }

  /** The record list after `a`; a created record gets the identifier `freshId`
      and appears at position `pos` of the provider's order. */
  function Apply(recs: seq<Record>, a: Action, freshId: int, pos: nat): (r: seq<Record>)
    requires pos <= |recs|
    ensures a.NoOp? ==> r == recs
  {
    match a
    case NoOp => recs
    case Create(domainId, name, target, ttl) =>
      recs[..pos] + [Record(domainId, freshId, name, target, ttl)] + recs[pos..]
    case Update(domainId, resourceId, target) => Retarget(recs, domainId, resourceId, target)
  }

  /** After the write the run decided on, the record `main` would select now
      points at the current address, so the next run decides on no write. */
  lemma ReconcileConverges(domain: Domain, recs: seq<Record>, name: string, ipText: string, freshId: int, pos: nat)
    requires pos <= |recs|
    ensures var a := Decide(domain, Lookup(recs, name), name, ipText);
            var after := Apply(recs, a, freshId, pos);
            Lookup(after, name).Some? && Lookup(after, name).value.target == ipText
            && Decide(domain, Lookup(after, name), name, ipText) == NoOp
  {
    var a := Decide(domain, Lookup(recs, name), name, ipText);
    var after := Apply(recs, a, freshId, pos);
    match FirstNamed(recs, name)
    case None =>
      assert after[pos].name == name && after[pos].target == ipText;
      assert forall j :: 0 <= j < pos ==> after[j] == recs[j];
      assert FirstNamed(after, name) == Some(pos);
    case Some(k) =>
      if recs[k].target != ipText {
        assert after[k].target == ipText;
        assert FirstNamed(after, name) == Some(k);
      }
  }
}
