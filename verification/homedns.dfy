/** One execution of homedns (main.go:94-163): the flag check of `init`, then
    `main`: resolve the public address, fetch the zone and its A records,
    select the record, and perform the decided write. Every provider call is
    recorded as a `Call`, and the provider's replies are inputs, so the model
    states which calls a run makes, in what order, and how it ends. */
module HomeDns {
  import opened Results
  import opened Ipv4
  import opened Resolver
  import opened Records
  import opened Reconcile
  import opened Flags
  import Decimal

  /** A call to the DNS provider. An update goes out as the raw API request
      `UpdateDomainResourceTarget` builds. */
  datatype Call =
    | GetDomain(domainName: string)
    | GetResourcesByType(domainId: int, resourceType: string)
    | CreateDomainResourceA(domainId: int, name: string, target: string, ttl: int)
    | ApiRequest(request: Request)

  predicate IsWrite(c: Call) {
    c.CreateDomainResourceA? || c.ApiRequest?
  }

  predicate HasWrite(calls: seq<Call>) {
    exists i :: 0 <= i < |calls| && IsWrite(calls[i])
  }

  /** The provider call that carries out a write decision (main.go:147, main.go:154). */
  function WriteCall(a: Action): (c: Call)
    requires !a.NoOp?
    ensures IsWrite(c)
    ensures c.CreateDomainResourceA? <==> a.Create?
  {
    match a
    case Create(domainId, name, target, ttl) => CreateDomainResourceA(domainId, name, target, ttl)
    case Update(domainId, resourceId, target) => ApiRequest(UpdateRequest(domainId, resourceId, target))
  }

  /** What the provider answers to the calls of one run, in order. */
  datatype Replies = Replies(
    domain: Result<Domain, string>,
    records: Result<seq<Record>, string>,
    writeError: Option<string>)

  /** The status a successful run ends with. */
  datatype Summary = Created | Updated | AlreadyCorrect

  /** The stage at which the process stops with a non-zero exit status. */
  datatype Failure =
    | MissingParameters(names: seq<string>)
    | Resolution(cause: ResolveError)
    | DomainLookup(message: string)
    | RecordsFetch(message: string)
    | CreateFailed(message: string)
    | UpdateFailed(message: string)

  /** The calls a run made and how it ended. */
  datatype Report = Report(calls: seq<Call>, outcome: Result<Summary, Failure>)

  predicate ReadsSucceeded(replies: Replies) {
    replies.domain.Ok? && replies.records.Ok?
  }

  /** The reconcile decision `main` takes once both reads succeeded. */
  function Decision(cfg: Config, ip: Address, format: Address -> string, replies: Replies): Action
    requires ReadsSucceeded(replies)
  {
    Decide(replies.domain.value, Lookup(replies.records.value, cfg.recordName), cfg.recordName, format(ip))
  }

  /** One run of `main`. `parse` and `format` stand for `net.ParseIP` and `IP.String`. */
  function Run(cfg: Config, body: string, matches: seq<string>,
               parse: string -> Option<Address>, format: Address -> string, replies: Replies): (rep: Report)
    // a refused echo response stops the run before any provider call
    ensures (rep.outcome.Err? && rep.outcome.error.Resolution?) <==> ResolvePublicAddress(body, matches, parse).Err?
    ensures rep.outcome.Err? && rep.outcome.error.Resolution? ==>
              rep.calls == [] && rep.outcome.error.cause == ResolvePublicAddress(body, matches, parse).error
    ensures !(rep.outcome.Err? && rep.outcome.error.MissingParameters?)
    // the zone read: first call, and its error stops the run
    ensures |rep.calls| > 0 <==> ResolvePublicAddress(body, matches, parse).Ok?
    ensures |rep.calls| > 0 ==> rep.calls[0] == GetDomain(cfg.domainName)
    ensures (rep.outcome.Err? && rep.outcome.error.DomainLookup?) <==>
              ResolvePublicAddress(body, matches, parse).Ok? && replies.domain.Err?
    ensures rep.outcome.Err? && rep.outcome.error.DomainLookup? ==>
              rep.calls == [GetDomain(cfg.domainName)] && rep.outcome.error.message == replies.domain.error
    // the record read: second call, for the zone's id, and its error stops the run
    ensures |rep.calls| >= 2 <==> ResolvePublicAddress(body, matches, parse).Ok? && replies.domain.Ok?
    ensures |rep.calls| >= 2 ==> rep.calls[1] == GetResourcesByType(replies.domain.value.domainId, "A")
    ensures (rep.outcome.Err? && rep.outcome.error.RecordsFetch?) <==>
              ResolvePublicAddress(body, matches, parse).Ok? && replies.domain.Ok? && replies.records.Err?
    ensures rep.outcome.Err? && rep.outcome.error.RecordsFetch? ==>
              |rep.calls| == 2 && rep.outcome.error.message == replies.records.error
    // at most one write, always the third and last call, and it is the decision
    ensures |rep.calls| <= 3
    ensures forall i :: 0 <= i < |rep.calls| ==> (IsWrite(rep.calls[i]) <==> i == 2)
    ensures HasWrite(rep.calls) ==>
              && ResolvePublicAddress(body, matches, parse).Ok?
              && ReadsSucceeded(replies)
              && !Decision(cfg, ResolvePublicAddress(body, matches, parse).value, format, replies).NoOp?
              && rep.calls[2] == WriteCall(Decision(cfg, ResolvePublicAddress(body, matches, parse).value, format, replies))
    // how the run ends once both reads succeeded
    ensures rep.outcome == Ok(AlreadyCorrect) <==>
              && ResolvePublicAddress(body, matches, parse).Ok?
              && ReadsSucceeded(replies)
              && Decision(cfg, ResolvePublicAddress(body, matches, parse).value, format, replies).NoOp?
    ensures rep.outcome == Ok(AlreadyCorrect) ==> |rep.calls| == 2
    ensures rep.outcome == Ok(Created) <==>
              HasWrite(rep.calls) && rep.calls[2].CreateDomainResourceA? && replies.writeError.None?
    ensures rep.outcome == Ok(Updated) <==>
              HasWrite(rep.calls) && rep.calls[2].ApiRequest? && replies.writeError.None?
    ensures (rep.outcome.Err? && rep.outcome.error.CreateFailed?) <==>
              HasWrite(rep.calls) && rep.calls[2].CreateDomainResourceA? && replies.writeError.Some?
    ensures (rep.outcome.Err? && rep.outcome.error.UpdateFailed?) <==>
              HasWrite(rep.calls) && rep.calls[2].ApiRequest? && replies.writeError.Some?
    ensures rep.outcome.Err? && (rep.outcome.error.CreateFailed? || rep.outcome.error.UpdateFailed?) ==>
              rep.outcome.error.message == replies.writeError.value
    ensures rep.outcome.Ok? ==> |rep.calls| >= 2
  {
    match ResolvePublicAddress(body, matches, parse)
    case Err(e) => Report([], Err(Resolution(e)))
    case Ok(ip) =>
      var lookupCalls := [GetDomain(cfg.domainName)];
      match replies.domain
      case Err(m) => Report(lookupCalls, Err(DomainLookup(m)))
      case Ok(domain) =>
        var readCalls := lookupCalls + [GetResourcesByType(domain.domainId, "A")];
        match replies.records
        case Err(m) => Report(readCalls, Err(RecordsFetch(m)))
        case Ok(recs) =>
          var action := Decision(cfg, ip, format, replies);
          match action
          case NoOp => Report(readCalls, Ok(AlreadyCorrect))
          case Create(_, _, _, _) =>
            Report(readCalls + [WriteCall(action)],
                   if replies.writeError.Some? then Err(CreateFailed(replies.writeError.value)) else Ok(Created))
          case Update(_, _, _) =>
            Report(readCalls + [WriteCall(action)],
                   if replies.writeError.Some? then Err(UpdateFailed(replies.writeError.value)) else Ok(Updated))
  }

  /** The whole process: `init`'s flag check, then `main`. Missing flags stop
      it before any provider call. */
  function Process(apiKey: string, domainName: string, recordName: string,
                   body: string, matches: seq<string>,
                   parse: string -> Option<Address>, format: Address -> string, replies: Replies): (rep: Report)
    ensures (rep.outcome.Err? && rep.outcome.error.MissingParameters?) <==>
              apiKey == "" || domainName == "" || recordName == ""
    ensures rep.outcome.Err? && rep.outcome.error.MissingParameters? ==>
              rep.calls == [] && rep.outcome.error.names == MissingParams(apiKey, domainName, recordName)
    ensures apiKey != "" && domainName != "" && recordName != "" ==>
              rep == Run(Config(apiKey, domainName, recordName), body, matches, parse, format, replies)
  {
    match LoadConfig(apiKey, domainName, recordName)
    case Err(missing) => Report([], Err(MissingParameters(missing)))
    case Ok(cfg) => Run(cfg, body, matches, parse, format, replies)
  }

  // ---------------------------------------------------------------------------
  // The provider's side of a write.

  /** The record list after the provider handles a call. An update request is
      read back from its text parameters; a request it cannot read, and every
      read call, changes nothing. */
  function ProviderApply(recs: seq<Record>, c: Call, freshId: int, pos: nat): seq<Record>
    requires pos <= |recs|
  {
    match c
    case CreateDomainResourceA(domainId, name, target, ttl) =>
      Apply(recs, Create(domainId, name, target, ttl), freshId, pos)
    case ApiRequest(req) =>
      if && req.apiAction == UpdateAction
         && "DomainID" in req.params && "ResourceID" in req.params && "Target" in req.params
         && Decimal.ReadInt(req.params["DomainID"]).Some?
         && Decimal.ReadInt(req.params["ResourceID"]).Some?
      then Retarget(recs, Decimal.ReadInt(req.params["DomainID"]).value,
                    Decimal.ReadInt(req.params["ResourceID"]).value, req.params["Target"])
      else recs
    case _ => recs
  }

  /** The call sent for a decision has, at the provider, exactly the effect of
      that decision: the update's text parameters name the selected record. */
  lemma ProviderCarriesOutDecision(recs: seq<Record>, a: Action, freshId: int, pos: nat)
    requires pos <= |recs| && !a.NoOp?
    ensures ProviderApply(recs, WriteCall(a), freshId, pos) == Apply(recs, a, freshId, pos)
  {
    if a.Update? {
      UpdateRequestIdentifiesRecord(a.domainId, a.resourceId, a.target);
    }
  }

  /** Re-running against the record list the first run's write produced makes
      no write and reports the record as already correct. */
  lemma RunIsIdempotent(cfg: Config, body: string, matches: seq<string>,
                        parse: string -> Option<Address>, format: Address -> string,
                        domain: Domain, recs: seq<Record>, freshId: int, pos: nat)
    requires pos <= |recs|
    requires ResolvePublicAddress(body, matches, parse).Ok?
    ensures
      var first := Run(cfg, body, matches, parse, format, Replies(Ok(domain), Ok(recs), None));
      var after := if HasWrite(first.calls) then ProviderApply(recs, first.calls[2], freshId, pos) else recs;
      var second := Run(cfg, body, matches, parse, format, Replies(Ok(domain), Ok(after), None));
      first.outcome.Ok? && second.outcome == Ok(AlreadyCorrect) && !HasWrite(second.calls)
  {
    var ip := ResolvePublicAddress(body, matches, parse).value;
    var a := Decide(domain, Lookup(recs, cfg.recordName), cfg.recordName, format(ip));
    ReconcileConverges(domain, recs, cfg.recordName, format(ip), freshId, pos);
    if !a.NoOp? {
      ProviderCarriesOutDecision(recs, a, freshId, pos);
    }
  }

  /** No A record named "home" in example.com, current address 203.0.113.7:
      the run creates it with TTL 300. */
  lemma CreateScenario(parse: string -> Option<Address>, format: Address -> string,
                       domainId: int, recs: seq<Record>)
    requires parse("203.0.113.7") == Some(Address(203, 0, 113, 7))
    requires format(Address(203, 0, 113, 7)) == "203.0.113.7"
    requires forall i :: 0 <= i < |recs| ==> recs[i].name != "home"
    ensures Run(Config("secret", "example.com", "home"), "Current IP Address: 203.0.113.7", ["203.0.113.7"],
                parse, format, Replies(Ok(Domain(domainId, "example.com")), Ok(recs), None))
            == Report([GetDomain("example.com"), GetResourcesByType(domainId, "A"),
                       CreateDomainResourceA(domainId, "home", "203.0.113.7", 300)], Ok(Created))
  {
  }

  /** "home" points at an old address: the run sends one update request with
      the record's own identifiers and the new target, and creates nothing. */
  lemma UpdateScenario(parse: string -> Option<Address>, format: Address -> string,
                       domainId: int, resourceId: int)
    requires parse("203.0.113.7") == Some(Address(203, 0, 113, 7))
    requires format(Address(203, 0, 113, 7)) == "203.0.113.7"
    ensures Run(Config("secret", "example.com", "home"), "Current IP Address: 203.0.113.7", ["203.0.113.7"],
                parse, format,
                Replies(Ok(Domain(domainId, "example.com")),
                        Ok([Record(domainId, resourceId, "home", "198.51.100.1", 300)]), None))
            == Report([GetDomain("example.com"), GetResourcesByType(domainId, "A"),
                       ApiRequest(UpdateRequest(domainId, resourceId, "203.0.113.7"))], Ok(Updated))
  {
  }

  /** "home" already points at 203.0.113.7: no write, "already correct". */
  lemma AlreadyCorrectScenario(parse: string -> Option<Address>, format: Address -> string,
                               domainId: int, resourceId: int)
    requires parse("203.0.113.7") == Some(Address(203, 0, 113, 7))
    requires format(Address(203, 0, 113, 7)) == "203.0.113.7"
    ensures Run(Config("secret", "example.com", "home"), "Current IP Address: 203.0.113.7", ["203.0.113.7"],
                parse, format,
                Replies(Ok(Domain(domainId, "example.com")),
                        Ok([Record(domainId, resourceId, "home", "203.0.113.7", 300)]), None))
            == Report([GetDomain("example.com"), GetResourcesByType(domainId, "A")], Ok(AlreadyCorrect))
  {
  }

  /** The echo page reports 10.0.0.5: the run stops before any provider call. */
  lemma PrivateAddressScenario(parse: string -> Option<Address>, format: Address -> string, replies: Replies)
    requires parse("10.0.0.5") == Some(Address(10, 0, 0, 5))
    ensures Run(Config("secret", "example.com", "home"), "Current IP Address: 10.0.0.5", ["10.0.0.5"],
                parse, format, replies)
            == Report([], Err(Resolution(PrivateAddress("10.0.0.5"))))
  {
  }
}
