/**
 The domain rows of all deployments and their primary-domain bookkeeping.  Each operation is atomic; a
 SELECT with LIMIT 1 may return any matching row, so the row it picks is part of the operation.
 */
module Domains {
  import opened Options

  type DomainId = nat
  type DeploymentId = nat

  datatype Row = Row(
    deployment: DeploymentId,
    fqdn: string,
    webRoute: bool,
    targetService: Option<string>,
    targetPort: Option<nat>,
    isPrimary: bool)

  type Rows = map<DomainId, Row>

  datatype Target = Target(service: Option<string>, port: Option<nat>)

  datatype Error = NotFound | PortOnly | FqdnTaken

  datatype Operation =
    | Add(deployment: DeploymentId, fqdn: string, webRoute: bool, target: Target, id: DomainId)
    | UpdateTarget(deployment: DeploymentId, domain: DomainId, serve: Option<bool>, target: Target, pick: Option<DomainId>)
    | MakePrimary(deployment: DeploymentId, domain: DomainId)
    | Remove(deployment: DeploymentId, domain: DomainId, pick: Option<DomainId>)
    | SetPrimary(deployment: DeploymentId, fqdn: string, pick: Option<DomainId>, id: DomainId)

  // ---------- Queries ----------

  predicate Owned(rows: Rows, d: DeploymentId, id: DomainId) {
    id in rows && rows[id].deployment == d
  }

  predicate IsPrimaryOf(rows: Rows, d: DeploymentId, id: DomainId) {
    Owned(rows, d, id) && rows[id].isPrimary
  }

  predicate ServesWeb(rows: Rows, d: DeploymentId, id: DomainId) {
    Owned(rows, d, id) && rows[id].webRoute
  }

  predicate HasPrimary(rows: Rows, d: DeploymentId) {
    exists id <- rows :: IsPrimaryOf(rows, d, id)
  }

  predicate HasWeb(rows: Rows, d: DeploymentId) {
    exists id <- rows :: ServesWeb(rows, d, id)
  }

  predicate Taken(rows: Rows, fqdn: string, except: Option<DomainId>) {
    exists id <- rows :: rows[id].fqdn == fqdn && except != Some(id)
  }

  /** A row that the LIMIT 1 query for a web-serving domain may answer with. */
  predicate WebPick(rows: Rows, d: DeploymentId, pick: Option<DomainId>) {
    if pick.Some? then ServesWeb(rows, d, pick.value) else !HasWeb(rows, d)
  }

  predicate PrimaryPick(rows: Rows, d: DeploymentId, pick: Option<DomainId>) {
    if pick.Some? then IsPrimaryOf(rows, d, pick.value) else !HasPrimary(rows, d)
  }

  // ---------- Operations ----------

  function Retargeted(rows: Rows, id: DomainId, serve: Option<bool>, target: Target): Rows
    requires id in rows
  {
    rows[id := rows[id].(webRoute := if serve.Some? then serve.value else rows[id].webRoute,
                         targetService := target.service, targetPort := target.port)]
  }

  function Demoted(rows: Rows, id: DomainId): Rows
    requires id in rows
  {
    rows[id := rows[id].(isPrimary := false)]
  }

  function Promoted(rows: Rows, pick: Option<DomainId>): Rows {
    if pick.Some? && pick.value in rows then rows[pick.value := rows[pick.value].(isPrimary := true)] else rows
  }

  function OnlyPrimary(rows: Rows, d: DeploymentId, domain: DomainId): Rows {
    map id | id in rows :: if rows[id].deployment == d then rows[id].(isPrimary := id == domain) else rows[id]
  }

  predicate HandsOver(rows: Rows, o: Operation)
    requires o.UpdateTarget? && Owned(rows, o.deployment, o.domain)
  {
    o.serve == Some(false) && rows[o.domain].isPrimary
  }

  /** The picks are answers the database can give, and a new id is unused. */
  predicate Possible(rows: Rows, o: Operation) {
    match o
    case Add(_, _, _, _, id) => id !in rows
    case UpdateTarget(d, domain, serve, target, pick) =>
      Owned(rows, d, domain) && HandsOver(rows, o) ==>
        WebPick(Demoted(Retargeted(rows, domain, serve, target), domain), d, pick)
    case MakePrimary(_, _) => true
    case Remove(d, domain, pick) => IsPrimaryOf(rows, d, domain) ==> WebPick(rows - {domain}, d, pick)
    case SetPrimary(d, _, pick, id) => PrimaryPick(rows, d, pick) && id !in rows
  }

  function Failure(rows: Rows, o: Operation): Option<Error> {
    match o
    case Add(_, fqdn, _, _, _) => if Taken(rows, fqdn, None) then Some(FqdnTaken) else None
    case UpdateTarget(d, domain, _, _, _) => if Owned(rows, d, domain) then None else Some(NotFound)
    case MakePrimary(d, domain) =>
      if !Owned(rows, d, domain) then Some(NotFound)
      else if !rows[domain].webRoute then Some(PortOnly)
      else None
    case Remove(_, _, _) => None
    case SetPrimary(_, fqdn, pick, _) => if Taken(rows, fqdn, pick) then Some(FqdnTaken) else None
  }

  /** The INSERT of addDomain, after its query whether there is a primary. */
  function Inserted(rows: Rows, d: DeploymentId, fqdn: string, webRoute: bool, target: Target, existing: bool,
                    id: DomainId): Rows {
    rows[id := Row(d, fqdn, webRoute, target.service, target.port, webRoute && !existing)]
  }

  function Next(rows: Rows, o: Operation): Rows {
    if Failure(rows, o).Some? then rows
    else
      match o
      case Add(d, fqdn, webRoute, target, id) =>
        Inserted(rows, d, fqdn, webRoute, target, HasPrimary(rows, d), id)
      case UpdateTarget(d, domain, serve, target, pick) =>
        var r := Retargeted(rows, domain, serve, target);
        if HandsOver(rows, o) then Promoted(Demoted(r, domain), pick) else r
      case MakePrimary(d, domain) => OnlyPrimary(rows, d, domain)
      case Remove(d, domain, pick) =>
        if !Owned(rows, d, domain) then rows
        else if rows[domain].isPrimary then Promoted(rows - {domain}, pick)
        else rows - {domain}
      case SetPrimary(d, fqdn, pick, id) =>
        if pick.Some? && pick.value in rows then rows[pick.value := rows[pick.value].(fqdn := fqdn)]
        else rows[id := Row(d, fqdn, true, None, None, true)]
  }

  // ---------- The service ----------

  class DomainsService {
    var rows: Rows
    var nextId: DomainId

    ghost predicate Valid()
      reads this
    {
      forall id <- rows :: id < nextId
    }

    constructor ()
      ensures Valid() && rows == map[]
    {
      rows, nextId := map[], 0;
    }

    method PrimaryDomain(d: DeploymentId) returns (found: Option<DomainId>)
      ensures PrimaryPick(rows, d, found)
    {
      found := None;
      if HasPrimary(rows, d) {
        var id :| id in rows && IsPrimaryOf(rows, d, id);
        found := Some(id);
      }
    }

    method AddDomain(d: DeploymentId, fqdn: string, webRoute: bool, target: Target) returns (error: Option<Error>)
      requires Valid()
      modifies this
      ensures Valid()
      ensures var o := Add(d, fqdn, webRoute, target, old(nextId));
              Possible(old(rows), o) && rows == Next(old(rows), o) && error == Failure(old(rows), o)
    {
      var existing := PrimaryDomain(d);
      if Taken(rows, fqdn, None) {
        return Some(FqdnTaken);
      }
      rows := rows[nextId := Row(d, fqdn, webRoute, target.service, target.port, webRoute && existing.None?)];
      nextId := nextId + 1;
      error := None;
    }

    method UpdateDomainTarget(d: DeploymentId, domain: DomainId, serve: Option<bool>, target: Target)
      returns (error: Option<Error>, ghost pick: Option<DomainId>)
      requires Valid()
      modifies this
      ensures Valid()
      ensures var o := UpdateTarget(d, domain, serve, target, pick);
              Possible(old(rows), o) && rows == Next(old(rows), o) && error == Failure(old(rows), o)
    {
      error, pick := None, None;
      if !Owned(rows, d, domain) {
        error := Some(NotFound);
        return;
      }
      var wasPrimary := rows[domain].isPrimary;
      rows := Retargeted(rows, domain, serve, target);
      if serve == Some(false) && wasPrimary {
        rows := Demoted(rows, domain);
        pick := PromoteAnotherPrimary(d);
      }
    }

    method MakePrimaryDomain(d: DeploymentId, domain: DomainId) returns (error: Option<Error>)
      requires Valid()
      modifies this
      ensures Valid()
      ensures rows == Next(old(rows), MakePrimary(d, domain)) && error == Failure(old(rows), MakePrimary(d, domain))
    {
      if !Owned(rows, d, domain) {
        return Some(NotFound);
      }
      if !rows[domain].webRoute {
        return Some(PortOnly);
      }
      rows := map id | id in rows :: if rows[id].deployment == d then rows[id].(isPrimary := false) else rows[id];
      rows := rows[domain := rows[domain].(isPrimary := true)];
      error := None;
    }

    method RemoveDomain(d: DeploymentId, domain: DomainId) returns (ghost pick: Option<DomainId>)
      requires Valid()
      modifies this
      ensures Valid()
      ensures Possible(old(rows), Remove(d, domain, pick)) && rows == Next(old(rows), Remove(d, domain, pick))
    {
      pick := None;
      if Owned(rows, d, domain) {
        var wasPrimary := rows[domain].isPrimary;
        rows := rows - {domain};
        if wasPrimary {
          pick := PromoteAnotherPrimary(d);
        }
      }
    }

    method SetPrimaryDomain(d: DeploymentId, fqdn: string) returns (error: Option<Error>, ghost pick: Option<DomainId>)
      requires Valid()
      modifies this
      ensures Valid()
      ensures var o := SetPrimary(d, fqdn, pick, old(nextId));
              Possible(old(rows), o) && rows == Next(old(rows), o) && error == Failure(old(rows), o)
    {
      var existing := PrimaryDomain(d);
      pick, error := existing, None;
      if Taken(rows, fqdn, existing) {
        error := Some(FqdnTaken);
      } else if existing.Some? {
        rows := rows[existing.value := rows[existing.value].(fqdn := fqdn)];
      } else {
        rows := rows[nextId := Row(d, fqdn, true, None, None, true)];
        nextId := nextId + 1;
      }
    }

    method PromoteAnotherPrimary(d: DeploymentId) returns (pick: Option<DomainId>)
      requires Valid()
      modifies this`rows
      ensures Valid()
      ensures WebPick(old(rows), d, pick) && rows == Promoted(old(rows), pick)
    {
      pick := None;
      if HasWeb(rows, d) {
        var id :| id in rows && ServesWeb(rows, d, id);
        pick := Some(id);
        rows := rows[id := rows[id].(isPrimary := true)];
      }
    }
  }

  // ---------- What every operation keeps ----------

  ghost predicate OnePrimary(rows: Rows) {
    forall a, b | a in rows && b in rows && rows[a].isPrimary && rows[b].isPrimary ::
      rows[a].deployment == rows[b].deployment ==> a == b
  }

  ghost predicate PrimariesServe(rows: Rows) {
    forall id <- rows :: rows[id].isPrimary ==> rows[id].webRoute
  }

  ghost predicate FqdnsDistinct(rows: Rows) {
    forall a, b :: a in rows && b in rows && a != b ==> rows[a].fqdn != rows[b].fqdn
  }

  ghost predicate Inv(rows: Rows) {
    OnePrimary(rows) && PrimariesServe(rows) && FqdnsDistinct(rows)
  }

  lemma KeepsOnePrimary(rows: Rows, o: Operation)
    requires OnePrimary(rows) && Possible(rows, o)
    ensures OnePrimary(Next(rows, o))
  {
  }

  lemma KeepsPrimariesServing(rows: Rows, o: Operation)
    requires PrimariesServe(rows) && Possible(rows, o)
    ensures PrimariesServe(Next(rows, o))
  {
  }

  lemma KeepsFqdnsDistinct(rows: Rows, o: Operation)
    requires FqdnsDistinct(rows) && Possible(rows, o)
    ensures FqdnsDistinct(Next(rows, o))
  {
  }

  lemma OperationKeepsInv(rows: Rows, o: Operation)
    requires Inv(rows) && Possible(rows, o)
    ensures Inv(Next(rows, o))
  {
    KeepsOnePrimary(rows, o);
    KeepsPrimariesServing(rows, o);
    KeepsFqdnsDistinct(rows, o);
  }

  /** The rows of other deployments are the same before and after. */
  lemma OthersUntouched(rows: Rows, o: Operation, id: DomainId)
    requires Possible(rows, o)
    ensures var after := Next(rows, o);
            && (id in rows && rows[id].deployment != o.deployment ==> id in after && after[id] == rows[id])
            && (id in after && after[id].deployment != o.deployment ==> id in rows && after[id] == rows[id])
  {
  }

  // ---------- Every sequence of operations ----------

  ghost predicate Legal(rows: Rows, run: seq<Operation>)
    decreases |run|
  {
    run == [] || (Possible(rows, run[0]) && Legal(Next(rows, run[0]), run[1..]))
  }

  ghost function Exec(rows: Rows, run: seq<Operation>): Rows
    requires Legal(rows, run)
    decreases |run|
  {
    if run == [] then rows else Exec(Next(rows, run[0]), run[1..])
  }

  lemma {:induction false} RunKeepsInv(rows: Rows, run: seq<Operation>)
    requires Inv(rows) && Legal(rows, run)
    ensures Inv(Exec(rows, run))
    decreases |run|
  {
    if run != [] {
      OperationKeepsInv(rows, run[0]);
      RunKeepsInv(Next(rows, run[0]), run[1..]);
    }
  }

  /** After any sequence of operations a deployment has at most one primary, which serves the web. */
  lemma AtMostOnePrimary(run: seq<Operation>, d: DeploymentId, a: DomainId, b: DomainId)
    requires Legal(map[], run)
    requires IsPrimaryOf(Exec(map[], run), d, a) && IsPrimaryOf(Exec(map[], run), d, b)
    ensures a == b && Exec(map[], run)[a].webRoute
  {
    RunKeepsInv(map[], run);
  }

  /** An operation on a deployment that has a primary leaves it one exactly when a web-serving domain
      remains. */
  lemma KeepsPrimaryIffWebRemains(rows: Rows, o: Operation)
    requires Inv(rows) && Possible(rows, o) && HasPrimary(rows, o.deployment)
    ensures HasPrimary(Next(rows, o), o.deployment) <==> HasWeb(Next(rows, o), o.deployment)
  {
    var after := Next(rows, o);
    OperationKeepsInv(rows, o);
    if HasPrimary(after, o.deployment) {
      var id :| id in after && IsPrimaryOf(after, o.deployment, id);
      assert ServesWeb(after, o.deployment, id);
    }
    if HasWeb(after, o.deployment) {
      var p :| p in rows && IsPrimaryOf(rows, o.deployment, p);
      var q := NewPrimary(rows, o, p);
    }
  }

  lemma NewPrimary(rows: Rows, o: Operation, p: DomainId) returns (q: DomainId)
    requires Inv(rows) && Possible(rows, o) && IsPrimaryOf(rows, o.deployment, p)
    requires HasWeb(Next(rows, o), o.deployment)
    ensures IsPrimaryOf(Next(rows, o), o.deployment, q)
  {
    q := p;
    match o {
      case UpdateTarget(d, domain, serve, target, pick) =>
        if Owned(rows, d, domain) && HandsOver(rows, o) && pick.Some? { q := pick.value; }
      case Remove(d, domain, pick) => if IsPrimaryOf(rows, d, domain) && pick.Some? { q := pick.value; }
      case MakePrimary(d, domain) => if Failure(rows, o).None? { q := domain; }
      case _ =>
    }
  }

  /** A deployment without a primary does not get one by a domain starting to serve the web. */
  lemma ServingDoesNotPromote(rows: Rows, d: DeploymentId, domain: DomainId, target: Target)
    requires Inv(rows) && Owned(rows, d, domain) && !HasPrimary(rows, d)
    ensures var after := Next(rows, UpdateTarget(d, domain, Some(true), target, None));
            HasWeb(after, d) && !HasPrimary(after, d)
  {
    var after := Next(rows, UpdateTarget(d, domain, Some(true), target, None));
    assert ServesWeb(after, d, domain);
    forall id | id in after ensures !IsPrimaryOf(after, d, id) {
      assert !IsPrimaryOf(rows, d, id);
    }
  }

  // ---------- When a deployment with web domains has a primary ----------

  predicate WebHasPrimary(rows: Rows, d: DeploymentId) {
    HasWeb(rows, d) ==> HasPrimary(rows, d)
  }

  /** A row of a deployment without a primary starts to serve the web. */
  predicate StartsServing(rows: Rows, o: Operation) {
    && o.UpdateTarget? && Owned(rows, o.deployment, o.domain)
    && o.serve == Some(true) && !HasPrimary(rows, o.deployment)
  }

  lemma NoneToHandOver(rows: Rows, o: Operation)
    requires Inv(rows) && Possible(rows, o) && !HasPrimary(rows, o.deployment) && !HasWeb(rows, o.deployment)
    requires !StartsServing(rows, o)
    ensures WebHasPrimary(Next(rows, o), o.deployment)
  {
    var after, d := Next(rows, o), o.deployment;
    if id :| id in after && ServesWeb(after, d, id) {
      assert id in rows ==> !ServesWeb(rows, d, id) && !IsPrimaryOf(rows, d, id);
      assert IsPrimaryOf(after, d, id);
    }
  }

  lemma StartsServingBreaks(rows: Rows, o: Operation)
    requires Inv(rows) && Possible(rows, o) && StartsServing(rows, o)
    ensures !WebHasPrimary(Next(rows, o), o.deployment)
  {
    var after, d := Next(rows, o), o.deployment;
    assert ServesWeb(after, d, o.domain);
    forall id | id in after ensures !IsPrimaryOf(after, d, id) {
      assert id in rows && !IsPrimaryOf(rows, d, id);
    }
  }

  /** An operation leaves its deployment with web domains and no primary exactly when it turns `webRoute` on in a
      deployment that has no primary. */
  lemma KeepsWebPrimaryIff(rows: Rows, o: Operation)
    requires Inv(rows) && Possible(rows, o) && WebHasPrimary(rows, o.deployment)
    ensures WebHasPrimary(Next(rows, o), o.deployment) <==> !StartsServing(rows, o)
  {
    if StartsServing(rows, o) {
      StartsServingBreaks(rows, o);
    } else if HasPrimary(rows, o.deployment) {
      KeepsPrimaryIffWebRemains(rows, o);
    } else {
      NoneToHandOver(rows, o);
    }
  }

  ghost predicate AllHavePrimaries(rows: Rows) {
    forall d :: WebHasPrimary(rows, d)
  }

  lemma OthersKeepPrimary(rows: Rows, o: Operation, d: DeploymentId)
    requires Possible(rows, o) && d != o.deployment
    ensures WebHasPrimary(Next(rows, o), d) <==> WebHasPrimary(rows, d)
  {
    var after := Next(rows, o);
    forall id ensures IsPrimaryOf(after, d, id) <==> IsPrimaryOf(rows, d, id) {
      OthersUntouched(rows, o, id);
    }
    forall id ensures ServesWeb(after, d, id) <==> ServesWeb(rows, d, id) {
      OthersUntouched(rows, o, id);
    }
    SameQueries(rows, after, d);
  }

  lemma SameQueries(rows: Rows, after: Rows, d: DeploymentId)
    requires forall id :: IsPrimaryOf(after, d, id) <==> IsPrimaryOf(rows, d, id)
    requires forall id :: ServesWeb(after, d, id) <==> ServesWeb(rows, d, id)
    ensures (HasPrimary(after, d) <==> HasPrimary(rows, d)) && (HasWeb(after, d) <==> HasWeb(rows, d))
  {
    if id :| id in after && IsPrimaryOf(after, d, id) { assert id in rows && IsPrimaryOf(rows, d, id); }
    if id :| id in rows && IsPrimaryOf(rows, d, id) { assert id in after && IsPrimaryOf(after, d, id); }
    if id :| id in after && ServesWeb(after, d, id) { assert id in rows && ServesWeb(rows, d, id); }
    if id :| id in rows && ServesWeb(rows, d, id) { assert id in after && ServesWeb(after, d, id); }
  }

  lemma OperationKeepsPrimariesIff(rows: Rows, o: Operation)
    requires Inv(rows) && Possible(rows, o) && AllHavePrimaries(rows)
    ensures AllHavePrimaries(Next(rows, o)) <==> !StartsServing(rows, o)
  {
    KeepsWebPrimaryIff(rows, o);
    forall d | d != o.deployment ensures WebHasPrimary(Next(rows, o), d) {
      OthersKeepPrimary(rows, o, d);
    }
  }

  ghost predicate PrimariesThroughout(rows: Rows, run: seq<Operation>)
    requires Legal(rows, run)
    decreases |run|
  {
    AllHavePrimaries(rows) && (run == [] || PrimariesThroughout(Next(rows, run[0]), run[1..]))
  }

  ghost predicate NeverStartsServing(rows: Rows, run: seq<Operation>)
    requires Legal(rows, run)
    decreases |run|
  {
    run == [] || (!StartsServing(rows, run[0]) && NeverStartsServing(Next(rows, run[0]), run[1..]))
  }

  /** In a sequence of operations every deployment with web domains has a primary all along exactly when no operation
      turns `webRoute` on in a deployment without a primary. */
  lemma {:induction false} PrimariesThroughoutIff(rows: Rows, run: seq<Operation>)
    requires Inv(rows) && AllHavePrimaries(rows) && Legal(rows, run)
    ensures PrimariesThroughout(rows, run) <==> NeverStartsServing(rows, run)
    decreases |run|
  {
    if run != [] {
      OperationKeepsInv(rows, run[0]);
      OperationKeepsPrimariesIff(rows, run[0]);
      if !StartsServing(rows, run[0]) {
        PrimariesThroughoutIff(Next(rows, run[0]), run[1..]);
      }
    }
  }

  // ---------- Operations that overlap ----------

  /** Nothing in the table keeps two calls of addDomain apart between query and INSERT: when both ask before either
      inserts, there are two primaries exactly when both domains serve the web and there was no primary. */
  lemma OverlappingAddsIff(rows: Rows, d: DeploymentId, fqdn: string, webRoute: bool, target: Target, id: DomainId,
                           fqdn': string, webRoute': bool, target': Target, id': DomainId)
    requires Inv(rows) && id !in rows && id' !in rows && id != id'
    ensures var existing := HasPrimary(rows, d);
            var after := Inserted(Inserted(rows, d, fqdn, webRoute, target, existing, id),
                                  d, fqdn', webRoute', target', existing, id');
            OnePrimary(after) <==> existing || !webRoute || !webRoute'
  {
    var existing := HasPrimary(rows, d);
    var after := Inserted(Inserted(rows, d, fqdn, webRoute, target, existing, id),
                          d, fqdn', webRoute', target', existing, id');
    assert after[id].isPrimary == (webRoute && !existing) && after[id'].isPrimary == (webRoute' && !existing);
    forall x | x in rows && rows[x].isPrimary && rows[x].deployment == d ensures existing {
      assert IsPrimaryOf(rows, d, x);
    }
  }

  /** The two UPDATEs of makePrimary. */
  function Cleared(rows: Rows, d: DeploymentId): Rows {
    map id | id in rows :: if rows[id].deployment == d then rows[id].(isPrimary := false) else rows[id]
  }

  function Marked(rows: Rows, d: DeploymentId, domain: DomainId): Rows {
    if Owned(rows, d, domain) then rows[domain := rows[domain].(isPrimary := true)] else rows
  }

  lemma MakePrimaryInTwo(rows: Rows, d: DeploymentId, domain: DomainId)
    requires Owned(rows, d, domain) && rows[domain].webRoute
    ensures Marked(Cleared(rows, d), d, domain) == Next(rows, MakePrimary(d, domain))
  {
  }

  /** Two calls of makePrimary that both clear before either marks leave two primaries exactly when the domains
      differ. */
  lemma OverlappingMakePrimaryIff(rows: Rows, d: DeploymentId, a: DomainId, b: DomainId)
    requires Inv(rows) && Owned(rows, d, a) && rows[a].webRoute && Owned(rows, d, b) && rows[b].webRoute
    ensures OnePrimary(Marked(Marked(Cleared(Cleared(rows, d), d), d, a), d, b)) <==> a == b
  {
    var after := Marked(Marked(Cleared(Cleared(rows, d), d), d, a), d, b);
    assert after[a].isPrimary && after[b].isPrimary && after[a].deployment == after[b].deployment == d;
  }

  // ---------- Operations, row by row ----------

  /** What is refused, and why. */
  lemma RefusedIff(rows: Rows, o: Operation)
    requires Possible(rows, o)
    ensures match o
            case Add(_, fqdn, _, _, _) =>
              Failure(rows, o) == if exists x <- rows :: rows[x].fqdn == fqdn then Some(FqdnTaken) else None
            case UpdateTarget(d, domain, _, _, _) =>
              Failure(rows, o) == if domain in rows && rows[domain].deployment == d then None else Some(NotFound)
            case MakePrimary(d, domain) =>
              && (Failure(rows, o) == Some(NotFound) <==> domain !in rows || rows[domain].deployment != d)
              && (Failure(rows, o) == Some(PortOnly) <==>
                    domain in rows && rows[domain].deployment == d && !rows[domain].webRoute)
              && Failure(rows, o) != Some(FqdnTaken)
            case Remove(_, _, _) => Failure(rows, o) == None
            case SetPrimary(_, fqdn, pick, _) =>
              Failure(rows, o) ==
                if exists x <- rows :: rows[x].fqdn == fqdn && pick != Some(x) then Some(FqdnTaken) else None
  {
  }

  lemma RefusedChangesNothing(rows: Rows, o: Operation)
    requires Failure(rows, o).Some?
    ensures Next(rows, o) == rows
  {
  }

  /** Which rows there are after an operation that is not refused, and everything of a row but whether it is primary:
      additions bring what they are given, an update its target and its route, a renaming its name, and nothing else
      changes. */
  lemma RowAfter(rows: Rows, o: Operation, x: DomainId)
    requires Possible(rows, o) && Failure(rows, o).None?
    ensures var after := Next(rows, o);
            match o
            case Add(d, fqdn, webRoute, target, id) =>
              (x in after <==> x in rows || x == id) && (x in rows ==> after[x] == rows[x])
              && after[id] == Row(d, fqdn, webRoute, target.service, target.port, after[id].isPrimary)
            case UpdateTarget(d, domain, serve, target, pick) =>
              (x in after <==> x in rows)
              && (x in rows ==>
                    after[x] == if x != domain then rows[x].(isPrimary := after[x].isPrimary)
                                else Row(d, rows[x].fqdn, (match serve case Some(on) => on case None => rows[x].webRoute),
                                         target.service, target.port, after[x].isPrimary))
            case MakePrimary(d, domain) =>
              (x in after <==> x in rows) && (x in rows ==> after[x] == rows[x].(isPrimary := after[x].isPrimary))
              && after[domain].isPrimary
            case Remove(d, domain, pick) =>
              (x in after <==> x in rows && !(x == domain && rows[x].deployment == d))
              && (x in after ==> after[x] == rows[x].(isPrimary := after[x].isPrimary))
            case SetPrimary(d, fqdn, pick, id) =>
              if pick.Some? then
                (x in after <==> x in rows)
                && (x in rows ==> after[x] == if Some(x) == pick then rows[x].(fqdn := fqdn) else rows[x])
              else
                (x in after <==> x in rows || x == id) && (x in rows ==> after[x] == rows[x])
                && after[id] == Row(d, fqdn, true, None, None, true)
  {
  }

  /** Which row of the deployment is primary after an operation that is not refused: the new one where there was none and
      it serves; the one that is asked for; and otherwise the same as before, or any web-serving one that remains when
      that one stops serving or goes. */
  lemma PrimaryAfter(rows: Rows, o: Operation, x: DomainId)
    requires Inv(rows) && Possible(rows, o) && Failure(rows, o).None?
    requires x in Next(rows, o) && Next(rows, o)[x].deployment == o.deployment
    ensures var after, d := Next(rows, o), o.deployment;
            match o
            case Add(_, _, webRoute, _, id) =>
              after[x].isPrimary <==>
                if x == id then webRoute && forall y <- rows :: !(rows[y].deployment == d && rows[y].isPrimary)
                else rows[x].isPrimary
            case MakePrimary(_, domain) => after[x].isPrimary <==> x == domain
            case UpdateTarget(_, domain, serve, _, pick) =>
              after[x].isPrimary <==>
                if serve == Some(false) && rows[domain].isPrimary then Some(x) == pick else rows[x].isPrimary
            case Remove(_, domain, pick) =>
              after[x].isPrimary <==>
                if domain in rows && rows[domain].deployment == d && rows[domain].isPrimary then Some(x) == pick
                else rows[x].isPrimary
            case SetPrimary(_, _, pick, id) => after[x].isPrimary <==> if pick.Some? then Some(x) == pick else x == id
  {
    if o.SetPrimary? && o.pick.None? && x != o.id { assert !IsPrimaryOf(rows, o.deployment, x); }
    if o.Add? && x == o.id {
      forall y <- rows
        ensures rows[y].deployment == o.deployment && rows[y].isPrimary ==> HasPrimary(rows, o.deployment)
      {
        assert rows[y].deployment == o.deployment && rows[y].isPrimary ==> IsPrimaryOf(rows, o.deployment, y);
      }
    }
  }
}
