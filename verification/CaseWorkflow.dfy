/**
 * The reporting cases of a team (app/backend/src/reporting.ts): creation without duplicates, and the
 * versioned transitions from draft to approved, submitted and closed.
 *
 * Every request changes the state in one transaction that either commits whole or throws.
 */
module CaseWorkflow {
  import opened Common

  datatype Status = Draft | Approved | Submitted | Closed

  datatype Action = Save | Approve | Submit | Close

  /** What was signed off: evidence, policy reason and who answers for it. */
  datatype Evidence = Evidence(notes: string, policy: string, assignee: Option<string>)

  datatype Case = Case(
    id: nat, key: string, status: Status, evidence: Evidence, reference: string, outcome: string,
    version: nat, events: seq<string>)

  datatype Input = Input(
    version: nat, action: Action, evidence: Evidence, reference: string, outcome: string, confirmed: bool)

  datatype Actor = Actor(id: string, name: string, owner: bool, preview: bool)

  datatype Refusal =
    | NotFound | NotYours | Changed | OwnerReassigns | NotAMember | IsClosed
    | ApprovalIncomplete | SubmissionIncomplete | NeedsReapproval | EvidenceLocked | NeedsOutcome

  predicate Truthy(s: Option<string>) {
    s.Some? && s.value != ""
  }

  function ActionName(a: Action): string {
    match a
    case Save => "save"
    case Approve => "approve"
    case Submit => "submit"
    case Close => "close"
  }

  function Reported(a: Action, status: Status): string {
    if a.Submit? then "Manual submission recorded by user (not verified by Google)"
    else ActionName(a) + ": " + match status
      case Draft => "draft"
      case Approved => "approved"
      case Submitted => "submitted"
      case Closed => "closed"
  }

  /** Where an accepted action leaves the case. */
  function NextStatus(status: Status, action: Action, material: bool): Status {
    match action
    case Approve => Approved
    case Submit => Submitted
    case Close => Closed
    case Save => if status.Approved? && material then Draft else status
  }

  /** The first rule an update breaks, in the order they are checked. */
  function Objection(c: Case, input: Input, actor: Actor, active: set<string>): Option<Refusal> {
    var material := input.evidence != c.evidence;
    if !actor.owner && c.evidence.assignee != Some(actor.id) then Some(NotYours)
    else if c.version != input.version then Some(Changed)
    else if !actor.owner && input.evidence.assignee != c.evidence.assignee then Some(OwnerReassigns)
    else if Truthy(input.evidence.assignee) && input.evidence.assignee.value !in active then Some(NotAMember)
    else if c.status.Closed? then Some(IsClosed)
    else if input.action.Approve? && (!c.status.Draft? || !Truthy(input.evidence.assignee)
        || |input.evidence.notes| < 10 || input.evidence.policy == "" || !input.confirmed) then Some(ApprovalIncomplete)
    else if input.action.Submit? && (!c.status.Approved? || !input.confirmed || input.reference == "") then Some(SubmissionIncomplete)
    else if input.action.Submit? && material then Some(NeedsReapproval)
    else if c.status.Submitted? && material then Some(EvidenceLocked)
    else if input.action.Close? && input.outcome == "" then Some(NeedsOutcome)
    else None
  }

  /** Fit to be signed off: notes, a policy reason and someone who answers for it. */
  predicate Complete(e: Evidence) {
    |e.notes| >= 10 && e.policy != "" && Truthy(e.assignee)
  }

  /** Each rule on its own: what it is about the update that breaks it. */
  predicate Breaks(rule: Refusal, c: Case, input: Input, actor: Actor, active: set<string>) {
    match rule
    case NotFound => false
    case NotYours => !actor.owner && Some(actor.id) != c.evidence.assignee
    case Changed => input.version != c.version
    case OwnerReassigns => !actor.owner && input.evidence.assignee != c.evidence.assignee
    case NotAMember => Truthy(input.evidence.assignee) && input.evidence.assignee.value !in active
    case IsClosed => c.status.Closed?
    case ApprovalIncomplete => input.action.Approve? && !(c.status.Draft? && Complete(input.evidence) && input.confirmed)
    case SubmissionIncomplete => input.action.Submit? && !(c.status.Approved? && input.confirmed && input.reference != "")
    case NeedsReapproval => input.action.Submit? && input.evidence != c.evidence
    case EvidenceLocked => c.status.Submitted? && input.evidence != c.evidence
    case NeedsOutcome => input.action.Close? && input.outcome == ""
  }

  /** An update is refused exactly when it breaks a rule, and the refusal names one it breaks. */
  lemma RefusedExactlyWhenARuleIsBroken(c: Case, input: Input, actor: Actor, active: set<string>)
    ensures Objection(c, input, actor, active).None? <==> forall rule :: !Breaks(rule, c, input, actor, active)
    ensures Objection(c, input, actor, active).Some? ==> Breaks(Objection(c, input, actor, active).value, c, input, actor, active)
  {
    var objection := Objection(c, input, actor, active);
    if objection.Some? {
      assert Breaks(objection.value, c, input, actor, active);
    }
  }

  function Updated(c: Case, input: Input): Case {
    var status := NextStatus(c.status, input.action, input.evidence != c.evidence);
    c.(evidence := input.evidence, reference := input.reference, outcome := input.outcome, status := status,
       version := c.version + 1, events := c.events + [Reported(input.action, status)])
  }

  /** Where an accepted action leaves the case, and what it stores: each field on its own. */
  predicate Lands(c: Case, input: Input, later: Case) {
    && later.id == c.id && later.key == c.key
    && later.evidence == input.evidence && later.reference == input.reference && later.outcome == input.outcome
    && later.version == c.version + 1
    && (input.action.Approve? ==> later.status.Approved?)
    && (input.action.Submit? ==> later.status.Submitted?)
    && (input.action.Close? ==> later.status.Closed?)
    && (input.action.Save? && c.status.Approved? && input.evidence != c.evidence ==> later.status.Draft?)
    && (input.action.Save? && !(c.status.Approved? && input.evidence != c.evidence) ==> later.status == c.status)
  }

  /** What the log says of it, in its own words, after all it said before. */
  predicate Logged(c: Case, input: Input, later: Case) {
    && |later.events| == |c.events| + 1 && c.events <= later.events
    && var line := later.events[|c.events|];
    && (input.action.Approve? ==> line == "approve: approved")
    && (input.action.Submit? ==> line == "Manual submission recorded by user (not verified by Google)")
    && (input.action.Close? ==> line == "close: closed")
    && (input.action.Save? && later.status.Draft? ==> line == "save: draft")
    && (input.action.Save? && later.status.Approved? ==> line == "save: approved")
    && (input.action.Save? && later.status.Submitted? ==> line == "save: submitted")
  }

  lemma UpdateLands(c: Case, input: Input)
    ensures Lands(c, input, Updated(c, input)) && Logged(c, input, Updated(c, input))
  {
    var later := Updated(c, input);
    assert later.events[|c.events|] == Reported(input.action, later.status);
  }

  function Find(cases: seq<Case>, id: nat): (i: nat)
    ensures i <= |cases|
    ensures i < |cases| ==> cases[i].id == id
    ensures forall j :: 0 <= j < i ==> cases[j].id != id
  {
    if cases == [] || cases[0].id == id then 0 else 1 + Find(cases[1..], id)
  }

  function FindKey(cases: seq<Case>, key: string): (i: nat)
    ensures i <= |cases|
    ensures i < |cases| ==> cases[i].key == key
    ensures forall j :: 0 <= j < i ==> cases[j].key != key
  {
    if cases == [] || cases[0].key == key then 0 else 1 + FindKey(cases[1..], key)
  }

  function NewCase(id: nat, key: string, notes: string, actor: Actor): Case {
    Case(id, key, Draft, Evidence(notes, "", if actor.preview then None else Some(actor.id)), "", "", 1,
         ["Case created; source snapshot preserved"])
  }

  // ---------------------------------------------------------------------------------------------
  // The store
  // ---------------------------------------------------------------------------------------------

  datatype Store = Store(cases: seq<Case>, active: set<string>, nextId: nat)

  datatype Request =
    | CreateCase(key: string, notes: string, actor: Actor)
    | PatchCase(id: nat, input: Input, actor: Actor)
    | SetMembers(active: set<string>)

  predicate Accepts(s: Store, id: nat, input: Input, actor: Actor) {
    var i := Find(s.cases, id);
    i < |s.cases| && Objection(s.cases[i], input, actor, s.active).None?
  }

  /** What one request makes of the store. */
  function Serve(s: Store, r: Request): Store {
    match r
    case CreateCase(key, notes, actor) =>
      if FindKey(s.cases, key) < |s.cases| then s
      else s.(cases := [NewCase(s.nextId, key, notes, actor)] + s.cases, nextId := s.nextId + 1)
    case PatchCase(id, input, actor) =>
      if Accepts(s, id, input, actor)
      then var i := Find(s.cases, id); s.(cases := s.cases[i := Updated(s.cases[i], input)])
      else s
    case SetMembers(active) => s.(active := active)
  }

  class ReportingStore {
    var cases: seq<Case>
    var active: set<string>
    var nextId: nat

    constructor (active: set<string>)
      ensures View() == Store([], active, 0)
    {
      cases, this.active, nextId := [], active, 0;
    }

    function View(): Store
      reads this
    {
      Store(cases, active, nextId)
    }

    /** Members are authorized and revoked; cases are untouched. */
    method SetActive(active: set<string>)
      modifies this`active
      ensures View() == Serve(old(View()), SetMembers(active))
    {
      this.active := active;
    }

    /** One case per key: a second request gets the first one's case back. */
    method Create(key: string, notes: string, actor: Actor) returns (duplicate: bool, item: Case)
      modifies this`cases, this`nextId
      ensures View() == Serve(old(View()), CreateCase(key, notes, actor))
      ensures item.key == key && item in cases
      ensures duplicate <==> exists c :: c in old(cases) && c.key == key
      ensures duplicate ==> item in old(cases) && cases == old(cases)
      ensures !duplicate ==> cases == [item] + old(cases) && item.status.Draft? && item.version == 1 && item.id == old(nextId)
      ensures !duplicate ==> item.evidence == Evidence(notes, "", if actor.preview then None else Some(actor.id))
      ensures !duplicate ==> item.reference == item.outcome == "" && |item.events| == 1
    {
      var i := FindKey(cases, key);
      if i < |cases| {
        return true, cases[i];
      }
      item := NewCase(nextId, key, notes, actor);
      cases := [item] + cases;
      nextId := nextId + 1;
      duplicate := false;
    }

    /** One update: the case as it now is, or the rule it broke, with nothing changed. */
    method Patch(id: nat, input: Input, actor: Actor) returns (r: Result<Case, Refusal>)
      modifies this`cases
      ensures View() == Serve(old(View()), PatchCase(id, input, actor))
      ensures r.Ok? <==> Accepts(old(View()), id, input, actor)
      ensures r.Ok? ==> r.value in cases && r.value.id == id && r.value.version == input.version + 1
      ensures r.Ok? ==> exists c :: c in old(cases) && c.id == id && Lands(c, input, r.value) && Logged(c, input, r.value)
      ensures r.Ok? ==> forall c :: c in old(cases) && c.id != id ==> c in cases
      ensures r.Err? ==> cases == old(cases)
      ensures r.Err? && r.error.NotFound? <==> forall c :: c in old(cases) ==> c.id != id
      ensures r.Err? && !r.error.NotFound? ==> exists c :: c in old(cases) && c.id == id && Breaks(r.error, c, input, actor, active)
    {
      var i := Find(cases, id);
      if i >= |cases| {
        return Err(NotFound);
      }
      var objection := Objection(cases[i], input, actor, active);
      RefusedExactlyWhenARuleIsBroken(cases[i], input, actor, active);
      if objection.Some? {
        return Err(objection.value);
      }
      var item := Updated(cases[i], input);
      UpdateLands(cases[i], input);
      cases := cases[i := item];
      assert cases[i] == item;
      assert forall j :: 0 <= j < |cases| && j != i ==> cases[j] == old(cases)[j];
      return Ok(item);
    }
  }

  // ---------------------------------------------------------------------------------------------
  // What every run keeps
  // ---------------------------------------------------------------------------------------------

  datatype AcceptedUpdate = AcceptedUpdate(id: nat, version: nat)

  /** The updates accepted so far, each case's latest approval, and where each closed case was closed from. */
  datatype History = History(accepted: seq<AcceptedUpdate>, approvals: map<nat, Evidence>, closedFrom: map<nat, Status>)

  function Remember(h: History, c: Case, input: Input): History {
    History(h.accepted + [AcceptedUpdate(c.id, c.version)],
            if input.action.Approve? then h.approvals[c.id := input.evidence] else h.approvals,
            if input.action.Close? then h.closedFrom[c.id := c.status] else h.closedFrom)
  }

  /** The store after any sequence of requests, in the order their transactions committed. */
  function After(active: set<string>, requests: seq<Request>): Store {
    if requests == [] then Store([], active, 0)
    else Serve(After(active, requests[..|requests| - 1]), requests[|requests| - 1])
  }

  function HistoryOf(active: set<string>, requests: seq<Request>): History {
    if requests == [] then History([], map[], map[])
    else
      var s, h := After(active, requests[..|requests| - 1]), HistoryOf(active, requests[..|requests| - 1]);
      match requests[|requests| - 1]
      case PatchCase(id, input, actor) =>
        if Accepts(s, id, input, actor) then Remember(h, s.cases[Find(s.cases, id)], input) else h
      case _ => h
  }

  /** The case has left draft by approval, and what was signed off has not been touched since. */
  ghost predicate CarriesApproval(c: Case, h: History) {
    c.id in h.approvals && c.evidence == h.approvals[c.id] && Complete(c.evidence)
  }

  /** What the case's status says about its past. */
  ghost predicate CaseSound(c: Case, h: History) {
    && c.version == |c.events| > 0
    && (c.status.Approved? || c.status.Submitted? ==> CarriesApproval(c, h))
    && (c.status.Closed? <==> c.id in h.closedFrom)
    && (c.status.Closed? ==> c.outcome != "")
    && (c.status.Closed? && h.closedFrom[c.id].Submitted? ==> CarriesApproval(c, h))
    && (forall a :: a in h.accepted && a.id == c.id ==> a.version < c.version)
  }

  ghost predicate Sound(cases: seq<Case>, nextId: nat, h: History) {
    && (forall i :: 0 <= i < |cases| ==> CaseSound(cases[i], h) && cases[i].id < nextId)
    && (forall i, j :: 0 <= i < j < |cases| ==> cases[i].id != cases[j].id && cases[i].key != cases[j].key)
    && (forall a, b :: 0 <= a < b < |h.accepted| ==> h.accepted[a] != h.accepted[b])
    && (forall a :: a in h.accepted ==> a.id < nextId)
    && (forall id :: id in h.closedFrom ==> id < nextId)
  }

  lemma CreateKeepsSound(cases: seq<Case>, nextId: nat, h: History, item: Case)
    requires Sound(cases, nextId, h)
    requires item.id == nextId && item.status.Draft? && item.version == |item.events| == 1
    requires forall c :: c in cases ==> c.key != item.key
    ensures Sound([item] + cases, nextId + 1, h)
  {
  }

  lemma PatchKeepsCase(c: Case, h: History, input: Input, actor: Actor, active: set<string>)
    requires CaseSound(c, h) && Objection(c, input, actor, active) == None
    ensures CaseSound(Updated(c, input), Remember(h, c, input))
  {
  }

  lemma PatchKeepsSound(cases: seq<Case>, nextId: nat, h: History, i: nat, input: Input, actor: Actor, active: set<string>)
    requires Sound(cases, nextId, h) && i < |cases|
    requires Objection(cases[i], input, actor, active) == None
    ensures Sound(cases[i := Updated(cases[i], input)], nextId, Remember(h, cases[i], input))
  {
    PatchKeepsCase(cases[i], h, input, actor, active);
  }

  lemma {:induction false} RunsStaySound(active: set<string>, requests: seq<Request>)
    ensures Sound(After(active, requests).cases, After(active, requests).nextId, HistoryOf(active, requests))
  {
    if requests != [] {
      var earlier, r := requests[..|requests| - 1], requests[|requests| - 1];
      RunsStaySound(active, earlier);
      var s, h := After(active, earlier), HistoryOf(active, earlier);
      match r
      case CreateCase(key, notes, actor) =>
        if FindKey(s.cases, key) == |s.cases| {
          CreateKeepsSound(s.cases, s.nextId, h, NewCase(s.nextId, key, notes, actor));
        }
      case PatchCase(id, input, actor) =>
        if Accepts(s, id, input, actor) {
          PatchKeepsSound(s.cases, s.nextId, h, Find(s.cases, id), input, actor, s.active);
        }
      case SetMembers(_) =>
    }
  }

  /**
   * After any requests: a submitted case, or one closed from submitted, carries exactly the notes,
   * policy and assignee of its latest approval, none of them missing.
   */
  lemma SubmittedCarriesItsApproval(active: set<string>, requests: seq<Request>, i: nat)
    requires i < |After(active, requests).cases|
    ensures var c, h := After(active, requests).cases[i], HistoryOf(active, requests);
      c.status.Submitted? || (c.id in h.closedFrom && h.closedFrom[c.id].Submitted?) ==>
        c.id in h.approvals && c.evidence == h.approvals[c.id] && Complete(c.evidence)
  {
    RunsStaySound(active, requests);
  }

  /**
   * No update is lost: for each case and version at most one update is accepted, the version always
   * counts the events, and no two cases share an id or a key.
   */
  lemma NoUpdateIsLost(active: set<string>, requests: seq<Request>)
    ensures var s, h := After(active, requests), HistoryOf(active, requests);
      && (forall a, b :: 0 <= a < b < |h.accepted| ==> h.accepted[a] != h.accepted[b])
      && (forall i :: 0 <= i < |s.cases| ==> s.cases[i].version == |s.cases[i].events|)
      && (forall i, j :: 0 <= i < j < |s.cases| ==> s.cases[i].key != s.cases[j].key && s.cases[i].id != s.cases[j].id)
  {
    RunsStaySound(active, requests);
  }

  /** From one request to the next: a case reaches submitted only from approved, and closed is for good. */
  ghost predicate MovesRightly(before: Case, later: Case) {
    && (before.status.Closed? ==> later == before)
    && (later.status.Submitted? && !before.status.Submitted? ==> before.status.Approved? && later.evidence == before.evidence)
    && (before.status.Submitted? ==> later.evidence == before.evidence && (later.status.Submitted? || later.status.Closed?))
    && before.version <= later.version <= before.version + 1
  }

  lemma UpdateMovesRightly(c: Case, input: Input, actor: Actor, active: set<string>)
    requires Objection(c, input, actor, active).None?
    ensures MovesRightly(c, Updated(c, input))
  {
    RefusedExactlyWhenARuleIsBroken(c, input, actor, active);
    assert !Breaks(IsClosed, c, input, actor, active) && !Breaks(SubmissionIncomplete, c, input, actor, active);
    assert !Breaks(NeedsReapproval, c, input, actor, active) && !Breaks(EvidenceLocked, c, input, actor, active);
  }

  /** Every case of the store is still there after a request, moved rightly. */
  lemma CasesMoveRightly(s: Store, r: Request, i: nat)
    requires i < |s.cases|
    ensures |s.cases| <= |Serve(s, r).cases|
    ensures var later := Serve(s, r).cases[i + |Serve(s, r).cases| - |s.cases|];
      later.id == s.cases[i].id && later.key == s.cases[i].key && MovesRightly(s.cases[i], later)
  {
    if r.PatchCase? && Accepts(s, r.id, r.input, r.actor) {
      UpdateMovesRightly(s.cases[Find(s.cases, r.id)], r.input, r.actor, s.active);
    }
  }

  /** An accepted update takes its case where its action says, and no other case anywhere. */
  lemma AcceptedUpdateLands(s: Store, id: nat, input: Input, actor: Actor, i: nat)
    requires i < |s.cases| && s.cases[i].id == id && forall j :: 0 <= j < i ==> s.cases[j].id != id
    requires forall rule :: !Breaks(rule, s.cases[i], input, actor, s.active)
    ensures var later := Serve(s, PatchCase(id, input, actor));
      && |later.cases| == |s.cases| && later.active == s.active && later.nextId == s.nextId
      && Lands(s.cases[i], input, later.cases[i]) && Logged(s.cases[i], input, later.cases[i])
      && forall j :: 0 <= j < |s.cases| && j != i ==> later.cases[j] == s.cases[j]
  {
    assert Find(s.cases, id) == i;
    RefusedExactlyWhenARuleIsBroken(s.cases[i], input, actor, s.active);
    UpdateLands(s.cases[i], input);
  }

  /** Every closed case says why. */
  lemma ClosedSaysWhy(active: set<string>, requests: seq<Request>, i: nat)
    requires i < |After(active, requests).cases| && After(active, requests).cases[i].status.Closed?
    ensures After(active, requests).cases[i].outcome != ""
  {
    RunsStaySound(active, requests);
  }

  /** Only the owner, or the assignee leaving the assignment alone, gets an update accepted. */
  lemma OnlyOwnerOrAssigneeUpdates(s: Store, id: nat, input: Input, actor: Actor)
    requires Accepts(s, id, input, actor)
    ensures var c := s.cases[Find(s.cases, id)];
      actor.owner || (c.evidence.assignee == Some(actor.id) && input.evidence.assignee == c.evidence.assignee)
    ensures Truthy(input.evidence.assignee) ==> input.evidence.assignee.value in s.active
  {
  }

  /** The case is in the later store too, `|later| - |earlier|` places further back: new cases go to the front. */
  ghost predicate Kept(earlier: seq<Case>, later: seq<Case>, c: Case, i: nat) {
    |earlier| <= |later| && i < |earlier| && later[i + |later| - |earlier|] == c
  }

  lemma ClosedIsKept(earlier: seq<Case>, s: Store, r: Request, c: Case, i: nat)
    requires Kept(earlier, s.cases, c, i) && c.status.Closed?
    ensures Kept(earlier, Serve(s, r).cases, c, i)
  {
    var at := i + |s.cases| - |earlier|;
    CasesMoveRightly(s, r, at);
    assert s.cases[at] == c;
  }

  lemma AfterOneMore(active: set<string>, requests: seq<Request>, r: Request)
    ensures After(active, requests + [r]) == Serve(After(active, requests), r)
  {
    assert (requests + [r])[..|requests|] == requests;
  }

  /** Closed is for good: no later request changes anything about a closed case. */
  lemma {:induction false} ClosedStaysClosed(active: set<string>, requests: seq<Request>, more: seq<Request>, i: nat)
    requires i < |After(active, requests).cases| && After(active, requests).cases[i].status.Closed?
    ensures Kept(After(active, requests).cases, After(active, requests + more).cases, After(active, requests).cases[i], i)
  {
    if more == [] {
      assert requests + more == requests;
    } else {
      var m, r := more[..|more| - 1], more[|more| - 1];
      ClosedStaysClosed(active, requests, m, i);
      assert requests + more == (requests + m) + [r];
      AfterOneMore(active, requests + m, r);
      ClosedIsKept(After(active, requests).cases, After(active, requests + m), r, After(active, requests).cases[i], i);
    }
  }
}
