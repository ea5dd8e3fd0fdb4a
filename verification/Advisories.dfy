/** Advisory requests: exclusive claim and response files, kept evidence, parent threads and host rotation. */
module Advisories {
  import opened Wrappers

  type Id = string
  type SessionID = string
  type Manifest = seq<(string, string)>           // each kept path with its digest

  datatype Host = Claude | Agy

  datatype RequestedHost = Named(host: Host) | Rotate

  datatype Answer = Submitted | Declined

  datatype Status = Pending | Claimed | Answered(answer: Answer) | Expired

  datatype Request = Request(id: Id, parent: Option<Id>, thread: Id, host: Host, createdAt: nat, expiresAt: nat)

  datatype Claim = Claim(session: SessionID, claimedAt: nat)

  datatype Response = Response(answer: Answer, session: SessionID, respondedAt: nat, evidence: Option<Manifest>)

  /** A keep operation that has passed its first checks and is still reading the worker. */
  datatype Keep = Keep(id: Id, session: SessionID)

  /**
   * The files of a project: requests in creation order, one claim and one
   * response file a request, the kept evidence directories and those reserved
   * for evidence, and the rotation file. `rotated` lists every host the rotation
   * has given out; `now` is the latest time read from the clock.
   */
  datatype Project = Project(
    requests: seq<Request>,
    claims: map<Id, Claim>,
    responses: map<Id, Response>,
    evidence: map<Id, Manifest>,
    reserved: set<Id>,
    keeps: set<Keep>,
    last: Option<Host>,
    rotated: seq<Host>,
    now: nat)

  const ADVISOR_REQUEST_TTL_MS: nat := 24 * 60 * 60 * 1000

  // ------------------------------------------------------------------
  // Files
  // ------------------------------------------------------------------

  /** Publish once: nothing changes when the name is taken. */
  function PublishExclusive<T>(files: map<Id, T>, id: Id, data: T): map<Id, T> { if id in files then files else files[id := data] }

  function IndexOf(requests: seq<Request>, id: Id): (i: nat)
    ensures i <= |requests| && (i < |requests| ==> requests[i].id == id)
  {
    if requests == [] || requests[0].id == id then 0 else 1 + IndexOf(requests[1..], id)
  }

  predicate Has(p: Project, id: Id) { IndexOf(p.requests, id) < |p.requests| }

  function Load(p: Project, id: Id): Request
    requires Has(p, id)
  {
    p.requests[IndexOf(p.requests, id)]
  }

  function StatusOf(p: Project, id: Id): Status
    requires Has(p, id)
  {
    if id in p.responses then Answered(p.responses[id].answer)
    else if p.now > Load(p, id).expiresAt then Expired
    else if id in p.claims then Claimed
    else Pending
  }

  // ------------------------------------------------------------------
  // Operations
  // ------------------------------------------------------------------

  function NextHost(last: Option<Host>): Host { if last == Some(Claude) then Agy else Claude }

  /** The tail of an ask: the parent must exist, and a taken id is refused after the rotation has moved on. */
  function Ask(p: Project, id: Id, parent: Option<Id>, host: RequestedHost, at: nat): Project {
    if parent.Some? && !Has(p, parent.value) then p.(now := at) else
    var thread := if parent.Some? then Load(p, parent.value).thread else id;
    var q := p.(now := at);
    var r := if host.Rotate? then q.(last := Some(NextHost(p.last)), rotated := p.rotated + [NextHost(p.last)]) else q;
    if Has(p, id) then r
    else r.(requests := p.requests + [Request(id, parent, thread, if host.Rotate? then NextHost(p.last) else host.host, at, at + ADVISOR_REQUEST_TTL_MS)])
  }

  /** The first reader claims the request; an expired one without response cannot be claimed. */
  function Read(p: Project, id: Id, session: SessionID, at: nat): Project {
    var q := p.(now := at);
    if !Has(p, id) || (id !in p.responses && at > Load(p, id).expiresAt) || id in p.claims then q
    else q.(claims := PublishExclusive(p.claims, id, Claim(session, at)))
  }

  function Respond(p: Project, id: Id, session: SessionID, answer: Answer, at: nat): Project {
    var q := p.(now := at);
    if !Has(p, id) || id in p.responses || at > Load(p, id).expiresAt || id !in p.claims || p.claims[id].session != session then q
    else
      q.(responses := PublishExclusive(p.responses, id, Response(answer, session, at, Kept(p, id))))
  }

  /** The first checks of a keep operation, before it reads the worker. */
  function BeginKeep(p: Project, id: Id, session: SessionID, at: nat): Project {
    var q := p.(now := at);
    if !Has(p, id) || at > Load(p, id).expiresAt || id in p.responses || id !in p.claims || p.claims[id].session != session then q
    else q.(keeps := p.keeps + {Keep(id, session)})
  }

  /** Evidence or a reservation is there by the time the tail of a keep operation looks. */
  predicate Taken(p: Project, keep: Keep) { keep !in p.keeps || keep.id in p.evidence || keep.id in p.reserved }

  /** Its synchronous tail: the staged directory is renamed into place, and taken back if a response is there by now. */
  function FinishKeep(p: Project, keep: Keep, manifest: Manifest): Project {
    var q := p.(keeps := p.keeps - {keep});
    if Taken(p, keep) || keep.id in p.responses then q else q.(evidence := p.evidence[keep.id := manifest])
  }

  /**
   * The process dies inside the tail: the reservation stays, and so does what
   * was renamed before the response was looked for.
   */
  function CrashKeep(p: Project, keep: Keep, manifest: Manifest, renamed: bool): Project {
    var q := p.(keeps := {});
    if Taken(p, keep) then q
    else q.(reserved := p.reserved + {keep.id}, evidence := if renamed then p.evidence[keep.id := manifest] else p.evidence)
  }

  datatype Label =
    | LAsk(id: Id, parent: Option<Id>, host: RequestedHost, at: nat)
    | LRead(id: Id, session: SessionID, at: nat)
    | LRespond(id: Id, session: SessionID, answer: Answer, at: nat)
    | LBeginKeep(id: Id, session: SessionID, at: nat)
    | LFinishKeep(keep: Keep, manifest: Manifest)
    | LCrashKeep(keep: Keep, manifest: Manifest, renamed: bool)
    | LAbandonKeep(keep: Keep)
    | LTick(at: nat)

  /** A keep operation is under way for the session, so its lock is taken. */
  predicate Locked(p: Project, session: SessionID) { exists k <- p.keeps :: k.session == session }

  /** The clock never goes back, and an operation waits for the lock of its session. */
  predicate Enabled(p: Project, l: Label) {
    && (l.LFinishKeep? || l.LCrashKeep? || l.LAbandonKeep? || l.at >= p.now)
    && (l.LRead? || l.LRespond? || l.LBeginKeep? ==> !Locked(p, l.session))
  }

  function Apply(p: Project, l: Label): Project {
    match l
    case LAsk(id, parent, host, at) => Ask(p, id, parent, host, at)
    case LRead(id, session, at) => Read(p, id, session, at)
    case LRespond(id, session, answer, at) => Respond(p, id, session, answer, at)
    case LBeginKeep(id, session, at) => BeginKeep(p, id, session, at)
    case LFinishKeep(keep, manifest) => FinishKeep(p, keep, manifest)
    case LCrashKeep(keep, manifest, renamed) => CrashKeep(p, keep, manifest, renamed)
    case LAbandonKeep(keep) => p.(keeps := p.keeps - {keep})
    case LTick(at) => p.(now := at)
  }

  const Empty := Project([], map[], map[], map[], {}, {}, None, [], 0)

  ghost predicate StepAt(projects: seq<Project>, labels: seq<Label>, i: nat)
    requires i < |labels| && |projects| == |labels| + 1
  {
    Enabled(projects[i], labels[i]) && projects[i + 1] == Apply(projects[i], labels[i])
  }

  ghost predicate Run(projects: seq<Project>, labels: seq<Label>) {
    && |projects| == |labels| + 1 && projects[0] == Empty
    && forall i :: 0 <= i < |labels| ==> StepAt(projects, labels, i)
  }

  // ------------------------------------------------------------------
  // What every run keeps
  // ------------------------------------------------------------------

  /** Ids are distinct, and a parent comes before its child and shares its thread. */
  predicate Threaded(requests: seq<Request>) {
    && (forall i, j :: 0 <= i < j < |requests| ==> requests[i].id != requests[j].id)
    && forall i :: 0 <= i < |requests| ==>
         if requests[i].parent == None then requests[i].thread == requests[i].id
         else exists j :: 0 <= j < i && requests[j].id == requests[i].parent.value && requests[j].thread == requests[i].thread
  }

  /** The evidence kept for a request. */
  function Kept(p: Project, id: Id): Option<Manifest> { if id in p.evidence then Some(p.evidence[id]) else None }

  /** A response is the claimant's, was given in time, and describes the evidence that is there. */
  predicate Honest(p: Project, id: Id)
    requires id in p.responses
  {
    && Has(p, id) && id in p.claims
    && p.responses[id].session == p.claims[id].session
    && p.claims[id].claimedAt <= p.responses[id].respondedAt <= Load(p, id).expiresAt
    && p.responses[id].evidence == Kept(p, id)
  }

  /** A keep under way is the claimant's, and its request has no response. */
  predicate Unanswered(p: Project, k: Keep) { k.id in p.claims && p.claims[k.id].session == k.session && k.id !in p.responses }

  predicate AllUnanswered(p: Project) { forall k <- p.keeps :: Unanswered(p, k) }

  /** Claude first, and never the same host twice in a row. */
  predicate Alternates(hosts: seq<Host>) {
    (hosts != [] ==> hosts[0] == Claude) && forall i :: 0 < i < |hosts| ==> hosts[i] != hosts[i - 1]
  }

  predicate ClaimsOnTime(p: Project) { forall id <- p.claims :: Has(p, id) && p.claims[id].claimedAt <= p.now }

  predicate AllHonest(p: Project) { forall id <- p.responses :: Honest(p, id) }

  predicate Rotating(p: Project) {
    Alternates(p.rotated) && p.last == if p.rotated == [] then None else Some(p.rotated[|p.rotated| - 1])
  }

  predicate Inv(p: Project) { Threaded(p.requests) && ClaimsOnTime(p) && AllHonest(p) && AllUnanswered(p) && Rotating(p) }

  /** What may have happened from one state to a later one. */
  predicate Later(p: Project, q: Project) {
    && p.now <= q.now && p.requests <= q.requests
    && Extends(p.claims, q.claims) && Extends(p.responses, q.responses) && Extends(p.evidence, q.evidence)
    && (forall id <- q.claims :: id in p.claims || InTime(p.now, q, id))
    && (forall id <- q.responses :: id in p.responses || InTime(p.now, q, id))
    && p.reserved <= q.reserved
    && (forall id <- q.evidence :: id in p.evidence || id !in p.reserved)
    && (forall id <- q.evidence :: id in p.evidence || id !in p.responses)
  }

  /** Files that are there stay as they are. */
  predicate Extends<T(==)>(a: map<Id, T>, b: map<Id, T>) { forall id <- a :: id in b && b[id] == a[id] }

  predicate InTime(at: nat, p: Project, id: Id) { Has(p, id) && at <= Load(p, id).expiresAt }

  // ------------------------------------------------------------------
  // Steps
  // ------------------------------------------------------------------

  lemma {:induction false} IndexOfAppend(requests: seq<Request>, r: Request, id: Id)
    ensures IndexOf(requests + [r], id) ==
            if IndexOf(requests, id) < |requests| then IndexOf(requests, id) else if r.id == id then |requests| else |requests| + 1
  {
    if requests == [] {
      assert (requests + [r])[1..] == [];
    } else if requests[0].id != id {
      assert (requests + [r])[1..] == requests[1..] + [r];
      IndexOfAppend(requests[1..], r, id);
    }
  }

  lemma {:induction false} IndexOfPrefix(a: seq<Request>, b: seq<Request>, id: Id)
    requires a <= b && IndexOf(a, id) < |a|
    ensures IndexOf(b, id) == IndexOf(a, id)
  {
    if a[0].id != id {
      assert a[1..] <= b[1..];
      IndexOfPrefix(a[1..], b[1..], id);
    }
  }

  lemma SameRequest(p: Project, q: Project, id: Id)
    requires p.requests <= q.requests && Has(p, id)
    ensures Has(q, id) && Load(q, id) == Load(p, id)
  {
    IndexOfPrefix(p.requests, q.requests, id);
  }

  lemma {:induction false} IndexOfLeast(requests: seq<Request>, id: Id, i: nat)
    requires i < |requests| && requests[i].id == id
    ensures IndexOf(requests, id) <= i
  {
    if requests[0].id != id {
      IndexOfLeast(requests[1..], id, i - 1);
    }
  }

  lemma ThreadedAppend(p: Project, r: Request)
    requires Threaded(p.requests) && !Has(p, r.id)
    requires if r.parent == None then r.thread == r.id else Has(p, r.parent.value) && r.thread == Load(p, r.parent.value).thread
    ensures Threaded(p.requests + [r])
  {
    var all := p.requests + [r];
    forall i | 0 <= i < |p.requests| ensures all[i].id != r.id {
      if all[i].id == r.id {
        IndexOfLeast(p.requests, r.id, i);
      }
    }
    forall i | 0 <= i < |all|
      ensures if all[i].parent == None then all[i].thread == all[i].id
              else exists j :: 0 <= j < i && all[j].id == all[i].parent.value && all[j].thread == all[i].thread
    {
      if all[i].parent.Some? {
        if i < |p.requests| {
          var j :| 0 <= j < i && p.requests[j].id == p.requests[i].parent.value && p.requests[j].thread == p.requests[i].thread;
          assert all[j] == p.requests[j];
        } else {
          var j := IndexOf(p.requests, r.parent.value);
          assert all[j] == p.requests[j];
        }
      }
    }
  }

  /** Requests only grow, so what is said of an old one stays true. */
  lemma OldRequests(p: Project, q: Project)
    requires p.requests <= q.requests
    ensures forall id: Id :: Has(p, id) ==> Has(q, id) && Load(q, id) == Load(p, id)
  {
    forall id: Id | Has(p, id) ensures Has(q, id) && Load(q, id) == Load(p, id) {
      SameRequest(p, q, id);
    }
  }

  /** Honest responses stay honest when only requests are added. */
  lemma HonestWithMore(p: Project, q: Project)
    requires AllHonest(p) && ClaimsOnTime(p) && p.requests <= q.requests && p.now <= q.now
    requires q.claims == p.claims && q.responses == p.responses && q.evidence == p.evidence && p.reserved <= q.reserved
    ensures AllHonest(q) && ClaimsOnTime(q) && Later(p, q)
  {
    OldRequests(p, q);
    forall i | i in q.responses ensures Honest(q, i) {
      assert Honest(p, i);
    }
  }

  lemma RotationMovesOn(last: Option<Host>, rotated: seq<Host>)
    requires Alternates(rotated) && last == if rotated == [] then None else Some(rotated[|rotated| - 1])
    ensures Alternates(rotated + [NextHost(last)])
  {
  }

  lemma AskRotates(p: Project, id: Id, parent: Option<Id>, host: RequestedHost, at: nat)
    requires Rotating(p)
    ensures Rotating(Ask(p, id, parent, host, at))
  {
    RotationMovesOn(p.last, p.rotated);
  }

  lemma AskKeeps(p: Project, id: Id, parent: Option<Id>, host: RequestedHost, at: nat)
    requires Inv(p) && at >= p.now
    ensures Inv(Ask(p, id, parent, host, at)) && Later(p, Ask(p, id, parent, host, at))
  {
    var q := Ask(p, id, parent, host, at);
    AskRotates(p, id, parent, host, at);
    AskThreads(p, id, parent, host, at);
    AskAdds(p, id, parent, host, at);
    HonestWithMore(p, q);
  }

  lemma AskAdds(p: Project, id: Id, parent: Option<Id>, host: RequestedHost, at: nat)
    requires at >= p.now
    ensures var q := Ask(p, id, parent, host, at);
            p.requests <= q.requests && q.now == at && q == p.(requests := q.requests, last := q.last, rotated := q.rotated, now := at)
  {
  }

  lemma AskThreads(p: Project, id: Id, parent: Option<Id>, host: RequestedHost, at: nat)
    requires Threaded(p.requests)
    ensures Threaded(Ask(p, id, parent, host, at).requests)
  {
    var q := Ask(p, id, parent, host, at);
    if |p.requests| < |q.requests| { ThreadedAppend(p, q.requests[|p.requests|]); }
  }

  /** A step that touches no file. */
  lemma QuietKeeps(p: Project, q: Project)
    requires Inv(p) && AllUnanswered(q)
    requires q.now >= p.now && p.reserved <= q.reserved && q == p.(now := q.now, keeps := q.keeps, reserved := q.reserved)
    ensures Inv(q) && Later(p, q)
  {
    HonestWithMore(p, q);
  }

  lemma ClaimKeeps(p: Project, id: Id, session: SessionID, at: nat, q: Project)
    requires Inv(p) && at >= p.now && Has(p, id) && id !in p.claims && (id in p.responses || at <= Load(p, id).expiresAt)
    requires q == p.(now := at, claims := p.claims[id := Claim(session, at)])
    ensures Inv(q) && Later(p, q)
  {
    forall i | i in q.responses ensures Honest(q, i) {
      assert Honest(p, i) && i != id;
    }
    forall k | k in q.keeps ensures Unanswered(q, k) {
      assert Unanswered(p, k);
    }
    ClaimIsLater(p, id, session, at, q);
  }

  lemma ClaimIsLater(p: Project, id: Id, session: SessionID, at: nat, q: Project)
    requires at >= p.now && Has(p, id) && id !in p.claims && (id in p.responses ==> Honest(p, id))
    requires id in p.responses || at <= Load(p, id).expiresAt
    requires q == p.(now := at, claims := p.claims[id := Claim(session, at)])
    ensures Later(p, q)
  {
    assert InTime(p.now, q, id);
  }

  lemma ReadKeeps(p: Project, id: Id, session: SessionID, at: nat)
    requires Inv(p) && at >= p.now
    ensures Inv(Read(p, id, session, at)) && Later(p, Read(p, id, session, at))
  {
    var q := Read(p, id, session, at);
    if q.claims == p.claims {
      QuietKeeps(p, q);
    } else {
      ClaimKeeps(p, id, session, at, q);
    }
  }

  lemma ResponseKeeps(p: Project, id: Id, r: Response, q: Project)
    requires Inv(p) && r.respondedAt >= p.now && Has(p, id) && id !in p.responses && r.respondedAt <= Load(p, id).expiresAt
    requires !Locked(p, r.session) && id in p.claims && p.claims[id].session == r.session && r.evidence == Kept(p, id)
    requires q == p.(now := r.respondedAt, responses := p.responses[id := r])
    ensures Inv(q) && Later(p, q)
  {
    forall i | i in q.responses ensures Honest(q, i) {
      if i != id {
        StillHonest(p, q, i);
      }
    }
    LockKeepsUnanswered(p, id, r, q);
    ResponseIsLater(p, id, r, q);
  }

  /** The lock keeps a response and a keep of one claimant apart. */
  lemma LockKeepsUnanswered(p: Project, id: Id, r: Response, q: Project)
    requires AllUnanswered(p) && !Locked(p, r.session) && id in p.claims && p.claims[id].session == r.session
    requires q == p.(now := r.respondedAt, responses := p.responses[id := r])
    ensures AllUnanswered(q)
  {
    forall k | k in q.keeps ensures Unanswered(q, k) {
      assert Unanswered(p, k);
    }
  }

  lemma StillHonest(p: Project, q: Project, i: Id)
    requires i in p.responses && Honest(p, i) && q == p.(now := q.now, responses := q.responses)
    requires i in q.responses && q.responses[i] == p.responses[i]
    ensures Honest(q, i)
  {
  }

  lemma ResponseIsLater(p: Project, id: Id, r: Response, q: Project)
    requires r.respondedAt >= p.now && Has(p, id) && id !in p.responses && r.respondedAt <= Load(p, id).expiresAt
    requires q == p.(now := r.respondedAt, responses := p.responses[id := r])
    ensures Later(p, q)
  {
    assert InTime(p.now, q, id);
  }

  lemma RespondKeeps(p: Project, id: Id, session: SessionID, answer: Answer, at: nat)
    requires Inv(p) && at >= p.now && !Locked(p, session)
    ensures Inv(Respond(p, id, session, answer, at)) && Later(p, Respond(p, id, session, answer, at))
  {
    var q := Respond(p, id, session, answer, at);
    if id in q.responses && id !in p.responses {
      ResponseKeeps(p, id, q.responses[id], q);
    } else {
      QuietKeeps(p, q);
    }
  }

  lemma EvidenceKeeps(p: Project, id: Id, manifest: Manifest, q: Project)
    requires Inv(p) && id !in p.evidence && id !in p.reserved && id !in p.responses && p.reserved <= q.reserved
    requires q.keeps <= p.keeps && q == p.(keeps := q.keeps, reserved := q.reserved, evidence := p.evidence[id := manifest])
    ensures Inv(q) && Later(p, q)
  {
    forall i | i in q.responses ensures Honest(q, i) {
      assert Honest(p, i);
    }
    forall k | k in q.keeps ensures Unanswered(q, k) {
      assert Unanswered(p, k);
    }
  }

  lemma KeepKeeps(p: Project, keep: Keep, manifest: Manifest)
    requires Inv(p)
    ensures Inv(FinishKeep(p, keep, manifest)) && Later(p, FinishKeep(p, keep, manifest))
  {
    var q := FinishKeep(p, keep, manifest);
    if Taken(p, keep) || keep.id in p.responses {
      QuietKeeps(p, q);
    } else {
      EvidenceKeeps(p, keep.id, manifest, q);
    }
  }

  lemma CrashKeeps(p: Project, keep: Keep, manifest: Manifest, renamed: bool)
    requires Inv(p)
    ensures Inv(CrashKeep(p, keep, manifest, renamed)) && Later(p, CrashKeep(p, keep, manifest, renamed))
  {
    var q := CrashKeep(p, keep, manifest, renamed);
    if Taken(p, keep) || !renamed {
      QuietKeeps(p, q);
    } else {
      assert Unanswered(p, keep);
      EvidenceKeeps(p, keep.id, manifest, q);
    }
  }

  lemma BeginKeeps(p: Project, id: Id, session: SessionID, at: nat)
    requires Inv(p) && at >= p.now
    ensures Inv(BeginKeep(p, id, session, at)) && Later(p, BeginKeep(p, id, session, at))
  {
    var q := BeginKeep(p, id, session, at);
    forall k | k in q.keeps ensures Unanswered(q, k) {
      assert k in p.keeps ==> Unanswered(p, k);
    }
    QuietKeeps(p, q);
  }

  lemma AbandonKeeps(p: Project, keep: Keep)
    requires Inv(p)
    ensures Inv(p.(keeps := p.keeps - {keep})) && Later(p, p.(keeps := p.keeps - {keep}))
  {
    var q := p.(keeps := p.keeps - {keep});
    forall k | k in q.keeps ensures Unanswered(q, k) {
      assert Unanswered(p, k);
    }
    QuietKeeps(p, q);
  }

  lemma StepKeeps(p: Project, l: Label)
    requires Inv(p) && Enabled(p, l)
    ensures Inv(Apply(p, l)) && Later(p, Apply(p, l))
  {
    match l
    case LAsk(id, parent, host, at) => AskKeeps(p, id, parent, host, at);
    case LRead(id, session, at) => ReadKeeps(p, id, session, at);
    case LRespond(id, session, answer, at) => RespondKeeps(p, id, session, answer, at);
    case LBeginKeep(id, session, at) => BeginKeeps(p, id, session, at);
    case LFinishKeep(keep, manifest) => KeepKeeps(p, keep, manifest);
    case LCrashKeep(keep, manifest, renamed) => CrashKeeps(p, keep, manifest, renamed);
    case LAbandonKeep(keep) => AbandonKeeps(p, keep);
    case LTick(at) => QuietKeeps(p, Apply(p, l));
  }

  lemma {:induction false} RunKeeps(projects: seq<Project>, labels: seq<Label>, n: nat)
    requires Run(projects, labels) && n < |projects|
    ensures Inv(projects[n])
  {
    if n > 0 {
      RunKeeps(projects, labels, n - 1);
      assert StepAt(projects, labels, n - 1);
      StepKeeps(projects[n - 1], labels[n - 1]);
    }
  }

  lemma LaterIsTransitive(p: Project, q: Project, r: Project)
    requires Later(p, q) && Later(q, r)
    ensures Later(p, r)
  {
    OldRequests(q, r);
    ExtendsOn(p.claims, q.claims, r.claims);
    ExtendsOn(p.responses, q.responses, r.responses);
    ExtendsOn(p.evidence, q.evidence, r.evidence);
  }

  lemma ExtendsOn<T>(a: map<Id, T>, b: map<Id, T>, c: map<Id, T>)
    requires Extends(a, b) && Extends(b, c)
    ensures Extends(a, c)
  {
  }

  lemma {:induction false} RunIsLater(projects: seq<Project>, labels: seq<Label>, m: nat, n: nat)
    requires Run(projects, labels) && m <= n < |projects|
    ensures Later(projects[m], projects[n])
    decreases n - m
  {
    if m < n {
      RunIsLater(projects, labels, m, n - 1);
      RunKeeps(projects, labels, n - 1);
      assert StepAt(projects, labels, n - 1);
      StepKeeps(projects[n - 1], labels[n - 1]);
      LaterIsTransitive(projects[m], projects[n - 1], projects[n]);
    } else {
      RunKeeps(projects, labels, n);
    }
  }

  // ------------------------------------------------------------------
  // Main results
  // ------------------------------------------------------------------

  /** Over any run, a claim or response file, once written, is there for good and never changes. */
  lemma WrittenOnce(projects: seq<Project>, labels: seq<Label>, m: nat, n: nat, id: Id)
    requires Run(projects, labels) && m <= n < |projects|
    ensures id in projects[m].claims ==> id in projects[n].claims && projects[n].claims[id] == projects[m].claims[id]
    ensures id in projects[m].responses ==> id in projects[n].responses && projects[n].responses[id] == projects[m].responses[id]
  {
    RunIsLater(projects, labels, m, n);
  }

  /** Over any run, whoever answered had claimed the request before, and answered it before it expired. */
  lemma ResponderIsClaimant(projects: seq<Project>, labels: seq<Label>, n: nat, id: Id)
    requires Run(projects, labels) && n < |projects| && id in projects[n].responses
    ensures var p := projects[n];
            && Has(p, id) && id in p.claims
            && p.responses[id].session == p.claims[id].session
            && p.claims[id].claimedAt <= p.responses[id].respondedAt <= Load(p, id).expiresAt
  {
    RunKeeps(projects, labels, n);
    assert Honest(projects[n], id);
  }

  /** A request moves from pending to claimed, from there to answered or expired, and no further. */
  predicate Moves(before: Status, after: Status) {
    match before
    case Pending => true
    case Claimed => after != Pending
    case Answered(_) => after == before
    case Expired => after == Expired
  }

  lemma StatusOnlyMovesForward(projects: seq<Project>, labels: seq<Label>, m: nat, n: nat, id: Id)
    requires Run(projects, labels) && m <= n < |projects| && Has(projects[m], id)
    ensures Has(projects[n], id) && Moves(StatusOf(projects[m], id), StatusOf(projects[n], id))
  {
    RunIsLater(projects, labels, m, n);
    SameRequest(projects[m], projects[n], id);
  }

  /** The tail of a keep operation never finds a response: whatever happened since its first checks, it is still the claimant's. */
  lemma TailFindsNoResponse(projects: seq<Project>, labels: seq<Label>, n: nat, k: Keep)
    requires Run(projects, labels) && n < |projects| && k in projects[n].keeps
    ensures k.id in projects[n].claims && projects[n].claims[k.id].session == k.session && k.id !in projects[n].responses
  {
    RunKeeps(projects, labels, n);
    assert Unanswered(projects[n], k);
  }

  lemma KeptStays(p: Project, q: Project, id: Id)
    requires Later(p, q) && (id in p.evidence || id in p.responses || id in p.reserved)
    ensures Kept(q, id) == Kept(p, id)
  {
  }

  /** Once there is a response, the evidence kept for the request never changes, wherever the broker crashes. */
  lemma EvidenceIsFrozen(projects: seq<Project>, labels: seq<Label>, m: nat, n: nat, id: Id)
    requires Run(projects, labels) && m <= n < |projects| && id in projects[m].responses
    ensures id in projects[n].responses && Kept(projects[n], id) == Kept(projects[m], id)
  {
    RunIsLater(projects, labels, m, n);
    KeptStays(projects[m], projects[n], id);
  }

  /** And it is what the response describes. */
  lemma ResponseDescribesEvidence(projects: seq<Project>, labels: seq<Label>, n: nat, id: Id)
    requires Run(projects, labels) && n < |projects| && id in projects[n].responses
    ensures projects[n].responses[id].evidence == Kept(projects[n], id)
  {
    RunKeeps(projects, labels, n);
    assert Honest(projects[n], id);
  }

  /** A reservation that a crash left without evidence is never given up: no evidence is ever kept for the request. */
  lemma LeftReservationBlocks(projects: seq<Project>, labels: seq<Label>, m: nat, n: nat, id: Id)
    requires Run(projects, labels) && m <= n < |projects| && id in projects[m].reserved
    ensures id in projects[n].reserved && Kept(projects[n], id) == Kept(projects[m], id)
  {
    RunIsLater(projects, labels, m, n);
    KeptStays(projects[m], projects[n], id);
  }

  /** The request that a chain of parents ends at. */
  function Root(requests: seq<Request>, i: nat): (r: nat)
    requires Threaded(requests) && i < |requests|
    ensures r <= i
    decreases i
  {
    if requests[i].parent == None then i
    else
      var j := IndexOf(requests[..i], requests[i].parent.value);
      if j < i then Root(requests, j) else i
  }

  /** Every chain of parents is finite and ends at the request that its thread names. */
  lemma {:induction false} ChainEndsAtThread(requests: seq<Request>, i: nat)
    requires Threaded(requests) && i < |requests|
    ensures requests[Root(requests, i)].parent == None && requests[Root(requests, i)].id == requests[i].thread
    ensures requests[Root(requests, i)].thread == requests[i].thread
    decreases i
  {
    if requests[i].parent.Some? {
      var k :| 0 <= k < i && requests[k].id == requests[i].parent.value && requests[k].thread == requests[i].thread;
      IndexOfLeast(requests[..i], requests[i].parent.value, k);
      var j := IndexOf(requests[..i], requests[i].parent.value);
      assert requests[..i][j] == requests[j];
      assert j == k;
      ChainEndsAtThread(requests, j);
    }
  }

  lemma ChainsEnd(projects: seq<Project>, labels: seq<Label>, n: nat, i: nat)
    requires Run(projects, labels) && n < |projects| && i < |projects[n].requests|
    ensures Threaded(projects[n].requests)
    ensures projects[n].requests[Root(projects[n].requests, i)].parent == None
    ensures projects[n].requests[Root(projects[n].requests, i)].id == projects[n].requests[i].thread
  {
    RunKeeps(projects, labels, n);
    ChainEndsAtThread(projects[n].requests, i);
  }

  /** The rotation never gives out one host twice in a row. */
  lemma RotationAlternates(projects: seq<Project>, labels: seq<Label>, n: nat)
    requires Run(projects, labels) && n < |projects|
    ensures Alternates(projects[n].rotated)
  {
    RunKeeps(projects, labels, n);
  }

  // ------------------------------------------------------------------
  // The store
  // ------------------------------------------------------------------

  /** The project's directory, changed file by file. */
  class AdvisorStore {
    var requests: seq<Request>
    var claims: map<Id, Claim>
    var responses: map<Id, Response>
    var evidence: map<Id, Manifest>
    var reserved: set<Id>
    var keeps: set<Keep>
    var last: Option<Host>
    var now: nat
    ghost var rotated: seq<Host>

    ghost function View(): Project
      reads this
    {
      Project(requests, claims, responses, evidence, reserved, keeps, last, rotated, now)
    }

    constructor ()
      ensures View() == Empty
    {
      requests, claims, responses, evidence, reserved, keeps, last, now, rotated := [], map[], map[], map[], {}, {}, None, 0, [];
    }

    method RotateHost() returns (next: Host)
      modifies this`last, this`rotated
      ensures next == NextHost(old(last)) && last == Some(next) && rotated == old(rotated) + [next]
    {
      next := if last == Some(Claude) then Agy else Claude;
      last := Some(next);
      rotated := rotated + [next];
    }

    method AdvisorAsk(id: Id, parent: Option<Id>, host: RequestedHost, at: nat) returns (ok: bool)
      modifies this
      ensures View() == Ask(old(View()), id, parent, host, at)
      ensures ok <==> |requests| > |old(requests)|
    {
      now := at;
      var thread := id;
      if parent.Some? {
        var i := IndexOf(requests, parent.value);
        if i == |requests| {
          return false;
        }
        thread := requests[i].thread;
      }
      var resolved;
      if host.Rotate? {
        resolved := RotateHost();
      } else {
        resolved := host.host;
      }
      if IndexOf(requests, id) < |requests| {
        return false;
      }
      requests := requests + [Request(id, parent, thread, resolved, at, at + ADVISOR_REQUEST_TTL_MS)];
      ok := true;
    }

    /** Publish the claim unless one is there; say whether it is the caller's. */
    method AdvisorRead(id: Id, session: SessionID, at: nat) returns (ok: bool)
      modifies this
      ensures View() == Read(old(View()), id, session, at)
      ensures ok <==> Has(View(), id) && (id in responses || at <= Load(View(), id).expiresAt) && id in claims && claims[id].session == session
    {
      now := at;
      var i := IndexOf(requests, id);
      if i == |requests| {
        return false;
      }
      if id !in responses && at > requests[i].expiresAt {
        return false;
      }
      if id !in claims {
        claims := PublishExclusive(claims, id, Claim(session, at));
      }
      ok := claims[id].session == session;
    }

    method AdvisorRespond(id: Id, session: SessionID, answer: Answer, at: nat) returns (ok: bool)
      modifies this
      ensures View() == Respond(old(View()), id, session, answer, at)
      ensures ok <==> id in responses && id !in old(responses)
    {
      now := at;
      var i := IndexOf(requests, id);
      if i == |requests| || id in responses || at > requests[i].expiresAt {
        return false;
      }
      if id !in claims || claims[id].session != session {
        return false;
      }
      var kept := if id in evidence then Some(evidence[id]) else None;
      responses := PublishExclusive(responses, id, Response(answer, session, at, kept));
      ok := true;
    }

    /** The tail of a keep operation: reserve, rename the staged directory, and take it back if a response is there. */
    method AdvisorEvidenceKeep(keep: Keep, manifest: Manifest) returns (ok: bool)
      requires keep in keeps
      modifies this
      ensures View() == FinishKeep(old(View()), keep, manifest)
      ensures ok <==> keep.id in evidence && keep.id !in old(evidence)
    {
      keeps := keeps - {keep};
      if keep.id in evidence || keep.id in reserved {
        return false;
      }
      ghost var was, free := evidence, reserved;
      reserved := reserved + {keep.id};
      evidence := evidence[keep.id := manifest];
      ok := keep.id !in responses;
      if !ok {
        evidence := evidence - {keep.id};
        assert evidence == was;
      }
      reserved := reserved - {keep.id};
      assert reserved == free;
    }
  }
}
