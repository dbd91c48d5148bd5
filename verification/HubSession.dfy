/**
 Session recovery and token binding: `_recover_session` and `_establish_session` of
 src/zediot_ha_hub_connector/runtime.py over `authenticate`, `_ensure_token`, `_rebind_session_token` and
 `connect_session` of src/zediot_ha_hub_connector/core_client.py. Core is the environment: it issues fresh
 session ids and tokens, and any request may fail before or after Core has processed it.
 */
module HubSession {
  import opened Wrappers

  /** A request that never takes effect, takes effect with its answer lost, or is answered. */
  datatype Fate = Dropped | Unanswered | Done

  /** The client's bearer token and live session, and Core's record of the token each session is bound to. */
  datatype Link = Link(
    token: Option<nat>,
    session: Option<nat>,
    bindings: map<nat, nat>,
    nextToken: nat,
    nextSession: nat)

  const UNCONNECTED := Link(None, None, map[], 0, 0)

  /** One attempt to create a session; a lease conflict is waited out and tried again. */
  datatype Attempt = Attempt(expiring: bool, auth: Fate, conflict: bool, create: Fate)

  datatype Op =
    | Request(expiring: bool, auth: Fate, rebind: Fate)        // any authenticated call on the live session
    | Recover(stale: nat, auth: Fate, attempts: seq<Attempt>)  // `_recover_session`; stopped when attempts run out
    | GoLive(auth: Fate, attempts: seq<Attempt>)               // startup: authenticate, then establish

  /** A call returns, raises, or gives up because the process was asked to stop. */
  datatype Ending = Finished | Raised | Stopped

  // ---------- the client calls ----------

  function Authenticate(l: Link, fate: Fate): (Link, Ending) {
    match fate
    case Dropped => (l, Raised)
    case Unanswered => (l.(nextToken := l.nextToken + 1), Raised)
    case Done => (l.(token := Some(l.nextToken), nextToken := l.nextToken + 1), Finished)
  }

  function Bind(l: Link, id: nat): Link {
    if l.token.None? then l else l.(bindings := l.bindings[id := l.token.value])
  }

  /** `_rebind_session_token` on the live session. */
  function Rebind(l: Link, fate: Fate): (Link, Ending) {
    if l.session.None? then (l, Finished)
    else if fate == Dropped then (l, Raised)
    else (Bind(l, l.session.value), if fate == Done then Finished else Raised)
  }

  /** `_ensure_token`; with `rebind` absent no session is passed, as when one is being created. */
  function EnsureToken(l: Link, expiring: bool, auth: Fate, rebind: Option<Fate>): (Link, Ending) {
    if l.token.Some? && !expiring then (l, Finished)
    else
      var (m, ending) := Authenticate(l, auth);
      if ending != Finished || rebind.None? then (m, ending) else Rebind(m, rebind.value)
  }

  /** POST /sessions: Core binds the new session to the token that asked for it. */
  function Create(l: Link, fate: Fate): (Link, Ending) {
    if fate == Dropped || l.token.None? then (l, Raised)
    else
      var m := Bind(l, l.nextSession).(nextSession := l.nextSession + 1);
      if fate == Unanswered then (m, Raised)
      else (m.(session := Some(l.nextSession)), Finished)
  }

  /** `_establish_session`: waits out lease conflicts until it connects, fails, or is asked to stop. */
  function Establish(l: Link, attempts: seq<Attempt>): (Link, Ending)
    decreases |attempts|
  {
    if attempts == [] then (l, Stopped)
    else
      var a := attempts[0];
      var (m, ending) := EnsureToken(l, a.expiring, a.auth, None);
      if ending != Finished then (m, ending)
      else if a.conflict then Establish(m, attempts[1..])
      else Create(m, a.create)
  }

  function AuthenticateAndEstablish(l: Link, auth: Fate, attempts: seq<Attempt>): (Link, Ending) {
    var (m, ending) := Authenticate(l, auth);
    if ending == Finished then Establish(m, attempts) else (m, ending)
  }

  function Perform(l: Link, op: Op): (Link, Ending) {
    match op
    case Request(expiring, auth, rebind) => EnsureToken(l, expiring, auth, Some(rebind))
    case Recover(stale, auth, attempts) =>
      if l.session.Some? && l.session.value != stale then (l, Finished)
      else AuthenticateAndEstablish(l, auth, attempts)
    case GoLive(auth, attempts) => AuthenticateAndEstablish(l, auth, attempts)
  }

  function Run(l: Link, ops: seq<Op>): Link
    decreases |ops|
  {
    if ops == [] then l else Perform(Run(l, ops[..|ops| - 1]), ops[|ops| - 1]).0
  }

  // ---------- the class ----------

  class SessionClient {
    var link: Link   // the client's token and session, and Core's side of the connection

    constructor ()
      ensures link == UNCONNECTED
    {
      link := UNCONNECTED;
    }

    method EstablishSession(attempts: seq<Attempt>) returns (ending: Ending)
      modifies this
      ensures (link, ending) == Establish(old(link), attempts)
    {
      var i := 0;
      while i < |attempts|
        invariant 0 <= i <= |attempts|
        invariant Establish(old(link), attempts) == Establish(link, attempts[i..])
      {
        var a := attempts[i];
        var ensured := EnsureToken(link, a.expiring, a.auth, None);
        link := ensured.0;
        if ensured.1 != Finished { return ensured.1; }
        if !a.conflict {
          var created := Create(link, a.create);
          link := created.0;
          return created.1;
        }
        assert attempts[i..][1..] == attempts[i + 1..];
        i := i + 1;
      }
      return Stopped;
    }

    /** Runs under the session lock: a report about a session that was already replaced changes nothing. */
    method RecoverSession(stale: nat, auth: Fate, attempts: seq<Attempt>) returns (ending: Ending)
      modifies this
      ensures (link, ending) == Perform(old(link), Recover(stale, auth, attempts))
      ensures old(link.session.Some? && link.session.value != stale) ==> ending == Finished && link == old(link)
    {
      if link.session.Some? && link.session.value != stale { return Finished; }
      var authenticated := Authenticate(link, auth);
      link := authenticated.0;
      if authenticated.1 != Finished { return authenticated.1; }
      ending := EstablishSession(attempts);
    }
  }

  // ---------- each stale session is replaced at most once ----------

  /** Ids and tokens are issued in increasing order. */
  ghost predicate Ordered(l: Link) {
    && (l.token.Some? ==> l.token.value < l.nextToken)
    && (l.session.Some? ==> l.session.value < l.nextSession)
  }

  /** The live session is bound to the token the client uses. */
  predicate InSync(l: Link) {
    l.session.Some? ==> l.session.value in l.bindings && l.token == Some(l.bindings[l.session.value])
  }

  /** The token moved on to one that was not yet issued in `l`. */
  predicate FreshToken(l: Link, m: Link) { m.token.Some? && m.token.value >= l.nextToken }

  lemma CreateOutcome(l: Link, fate: Fate)
    requires Ordered(l) && l.token.Some?
    ensures var (m, ending) := Create(l, fate);
      && Ordered(m) && m.token == l.token && ending != Stopped && m.nextSession >= l.nextSession
      && (ending == Finished ==> m.session == Some(l.nextSession) && InSync(m))
      && (ending != Finished ==> m.session == l.session)
  {
  }

  lemma {:induction false} EstablishOutcome(l: Link, attempts: seq<Attempt>)
    requires Ordered(l) && l.token.Some?
    ensures var (m, ending) := Establish(l, attempts);
      && Ordered(m) && m.nextSession >= l.nextSession
      && (ending == Finished ==> m.session.Some? && m.session.value >= l.nextSession && InSync(m))
      && (ending != Finished ==> m.session == l.session)
      && (m.token == l.token || FreshToken(l, m))
    decreases |attempts|
  {
    if attempts != [] {
      var (m, ending) := EnsureToken(l, attempts[0].expiring, attempts[0].auth, None);
      if ending == Finished && attempts[0].conflict {
        EstablishOutcome(m, attempts[1..]);
      } else if ending == Finished {
        CreateOutcome(m, attempts[0].create);
      }
    }
  }

  lemma PerformKeepsOrdered(l: Link, op: Op)
    requires Ordered(l)
    ensures Ordered(Perform(l, op).0)
  {
    if !op.Request? && op.auth == Done { EstablishOutcome(Authenticate(l, Done).0, op.attempts); }
  }

  lemma {:induction false} RunKeepsOrdered(ops: seq<Op>)
    ensures Ordered(Run(UNCONNECTED, ops))
    decreases |ops|
  {
    if ops != [] {
      RunKeepsOrdered(ops[..|ops| - 1]);
      PerformKeepsOrdered(Run(UNCONNECTED, ops[..|ops| - 1]), ops[|ops| - 1]);
    }
  }

  /** The session after an operation is the one before it, or a newly issued one. */
  lemma SessionMovesOn(l: Link, op: Op)
    requires Ordered(l)
    ensures var m := Perform(l, op).0;
      m.nextSession >= l.nextSession && (m.session == l.session || (m.session.Some? && m.session.value >= l.nextSession))
  {
    if !op.Request? && op.auth == Done { EstablishOutcome(Authenticate(l, Done).0, op.attempts); }
  }

  /** A session that has been replaced is older than the one that is live. */
  lemma {:induction false} ReplacedStaysReplaced(ops: seq<Op>, i: nat, id: nat, j: nat)
    requires i < j <= |ops| && Replaced(ops, i, id)
    ensures var l := Run(UNCONNECTED, ops[..j]); l.session.Some? && l.session.value > id
    decreases j
  {
    RunKeepsOrdered(ops[..j - 1]);
    SessionMovesOn(Run(UNCONNECTED, ops[..j - 1]), ops[j - 1]);
    assert ops[..j][..j - 1] == ops[..j - 1];
    if j - 1 > i { ReplacedStaysReplaced(ops, i, id, j - 1); }
  }

  /** The i-th call replaces the live session `id`. */
  predicate Replaced(ops: seq<Op>, i: nat, id: nat)
    requires i < |ops|
  {
    var l := Run(UNCONNECTED, ops[..i]);
    l.session == Some(id) && Perform(l, ops[i]).0.session != l.session
  }

  /**
   However many threads report a stale session and however the calls fail: once it was replaced, every later
   report of it leaves the link as it is. So no two reports ever replace the same session.
   */
  lemma StaleSessionReplacedOnce(ops: seq<Op>, i: nat, j: nat, id: nat)
    requires i < j < |ops| && Replaced(ops, i, id)
    requires ops[j].Recover? && ops[j].stale == id
    ensures Perform(Run(UNCONNECTED, ops[..j]), ops[j]) == (Run(UNCONNECTED, ops[..j]), Finished)
  {
    ReplacedStaysReplaced(ops, i, id, j);
  }

  // ---------- tokens are renewed ----------

  /**
   A call keeps a token that is not about to expire and renews any other one; one that finishes on a live
   session leaves the session bound to the token in use.
   */
  lemma RequestRenewsToken(l: Link, expiring: bool, auth: Fate, rebind: Fate)
    requires Ordered(l)
    ensures var (m, ending) := Perform(l, Request(expiring, auth, rebind));
      && m.session == l.session
      && (l.token.Some? && !expiring ==> m == l && ending == Finished)
      && (l.token.None? || expiring ==>
            && (ending == Finished ==> FreshToken(l, m) && InSync(m))
            && (auth != Done ==> ending == Raised && m.token == l.token && m.bindings == l.bindings)
            && (auth == Done ==> FreshToken(l, m) && (ending == Finished <==> l.session.None? || rebind == Done)))
  {
  }

  /** A recovery or a start always asks for a new token first, and creates no session without one. */
  lemma RecoveryRenewsToken(l: Link, op: Op)
    requires Ordered(l) && !op.Request? && (op.Recover? ==> l.session.None? || l.session.value == op.stale)
    ensures var (m, ending) := Perform(l, op);
      && (op.auth != Done ==> ending == Raised && m.session == l.session && m.token == l.token)
      && (op.auth == Done ==> FreshToken(l, m))
  {
    if op.auth == Done { EstablishOutcome(Authenticate(l, Done).0, op.attempts); }
  }

  // ---------- token binding ----------

  /** The call ended early after it had already replaced the token. */
  predicate FailedPartWay(l: Link, op: Op) {
    Perform(l, op).1 != Finished && Perform(l, op).0.token != l.token
  }

  /** A recovery (or start) that ended with a new session. */
  predicate Recovered(l: Link, op: Op) {
    !op.Request? && Perform(l, op).1 == Finished && Perform(l, op).0.session != l.session
  }

  /** Only a call that failed part-way can break the binding, and a full recovery always restores it. */
  lemma BindingStep(l: Link, op: Op)
    requires Ordered(l)
    ensures InSync(l) && !FailedPartWay(l, op) ==> InSync(Perform(l, op).0)
    ensures Recovered(l, op) ==> InSync(Perform(l, op).0)
  {
    if !op.Request? && op.auth == Done { EstablishOutcome(Authenticate(l, Done).0, op.attempts); }
  }

  predicate FailedAt(ops: seq<Op>, j: nat) {
    j < |ops| && FailedPartWay(Run(UNCONNECTED, ops[..j]), ops[j])
  }

  predicate RecoveredAt(ops: seq<Op>, k: nat) {
    k < |ops| && Recovered(Run(UNCONNECTED, ops[..k]), ops[k])
  }

  /** The j-th call failed part-way and no later one recovered. */
  ghost predicate Unrepaired(ops: seq<Op>, j: nat) {
    FailedAt(ops, j) && forall k: nat :: j < k ==> !RecoveredAt(ops, k)
  }

  lemma UnrepairedExtends(before: seq<Op>, op: Op, j: nat)
    requires Unrepaired(before, j) && !Recovered(Run(UNCONNECTED, before), op)
    ensures Unrepaired(before + [op], j)
  {
    var ops := before + [op];
    assert ops[..j] == before[..j];
    forall k: nat | j < k ensures !RecoveredAt(ops, k) {
      if k < |before| {
        assert ops[..k] == before[..k];
        assert !RecoveredAt(before, k);
      } else if k == |before| {
        assert ops[..k] == before;
      }
    }
  }

  /**
   In every run, the live session's bound token differs from the client's only if some call failed part-way
   and no recovery has fully succeeded since.
   */
  lemma {:induction false} MismatchNeedsPartialFailure(ops: seq<Op>)
    requires !InSync(Run(UNCONNECTED, ops))
    ensures exists j: nat :: Unrepaired(ops, j)
    decreases |ops|
  {
    var before, op := ops[..|ops| - 1], ops[|ops| - 1];
    RunKeepsOrdered(before);
    BindingStep(Run(UNCONNECTED, before), op);
    assert ops == before + [op];
    if FailedPartWay(Run(UNCONNECTED, before), op) {
      assert Unrepaired(ops, |before|);
    } else {
      MismatchNeedsPartialFailure(before);
      var j: nat :| Unrepaired(before, j);
      UnrepairedExtends(before, op, j);
    }
  }

  // ---------- a mismatch is never a stall ----------

  /** The `data` of a JSON body: a string, an object whose `detail` may be a string, or anything else. */
  datatype Data = Text(text: string) | Object(detail: Option<string>) | Other

  /** A response of Core; the body is absent when it is not a JSON object. */
  datatype Response = Response(status: int, data: Option<Data>)

  const SESSIONS := "/api/hub/v1/sessions/"

  const INVALID: set<string> := {
    "Hub session is not active",
    "stale Hub session lease generation",
    "Hub session lease expired",
    "Hub session token binding mismatch",
    "Hub session has no token binding"
  }

  predicate Contains(s: string, part: string) {
    exists i :: 0 <= i <= |s| && part <= s[i..]
  }

  function DetailOf(data: Data): Option<string> {
    match data
    case Text(text) => Some(text)
    case Object(detail) => detail
    case Other => None
  }

  /** `_invalid_session_detail` */
  function InvalidSessionDetail(path: string, r: Response): Option<string> {
    if !Contains(path, SESSIONS) then None
    else if r.status != 403 && r.status != 409 then None
    else if r.data.None? then None
    else
      var detail := DetailOf(r.data.value);
      if detail.Some? && detail.value in INVALID then detail else None
  }

  /** The path of a request on a live session. */
  function SessionPath(id: string, call: string): string { SESSIONS + id + call }

  lemma SessionPathsAreRecognised(id: string, call: string)
    ensures Contains(SessionPath(id, call), SESSIONS)
  {
    var path := SessionPath(id, call);
    assert path[0..] == path && path[..|SESSIONS|] == SESSIONS;
  }

  /** The rest of the text after the first occurrence of the separator. */
  function AfterFirst(s: string, separator: string): Option<string> {
    if separator <= s then Some(s[|separator|..])
    else if s == [] then None
    else AfterFirst(s[1..], separator)
  }

  function UpToSlash(s: string): string {
    if s == [] || s[0] == '/' then [] else [s[0]] + UpToSlash(s[1..])
  }

  /** `_session_id_from_path` */
  function SessionIdFromPath(path: string): Option<string> {
    match AfterFirst(path, "/sessions/")
    case None => None
    case Some(rest) => Some(UpToSlash(rest))
  }

  lemma {:induction false} AfterFirstSkips(before: string, s: string, separator: string)
    requires forall i :: 0 <= i < |before| ==> !(separator <= (before + s)[i..])
    ensures AfterFirst(before + s, separator) == AfterFirst(s, separator)
    decreases |before|
  {
    if before == [] {
      assert before + s == s;
    } else {
      var t := before + s;
      assert t[0..] == t && t[1..] == before[1..] + s;
      forall i | 0 <= i < |before[1..]| ensures !(separator <= (before[1..] + s)[i..]) {
        assert (before[1..] + s)[i..] == t[i + 1..];
      }
      AfterFirstSkips(before[1..], s, separator);
    }
  }

  lemma {:induction false} UpToSlashStops(id: string, call: string)
    requires '/' !in id && (call == [] || call[0] == '/')
    ensures UpToSlash(id + call) == id
    decreases |id|
  {
    if id == [] {
      assert id + call == call;
    } else {
      assert (id + call)[1..] == id[1..] + call && id == [id[0]] + id[1..];
      UpToSlashStops(id[1..], call);
    }
  }

  /** The session that a rejection reports as stale is the one the request was for. */
  lemma ReportNamesItsSession(id: string, call: string)
    requires '/' !in id && (call == [] || call[0] == '/')
    ensures SessionIdFromPath(SessionPath(id, call)) == Some(id)
  {
    var before, separator := "/api/hub/v1", "/sessions/";
    var rest := separator + (id + call);
    assert SessionPath(id, call) == before + rest;
    forall i | 0 <= i < |before| ensures !(separator <= (before + rest)[i..]) {
      var t := (before + rest)[i..];
      assert t[0] == before[i] && t[1] == (before + separator)[i + 1];
      assert before[i] != '/' || (before + separator)[i + 1] != 's';
    }
    AfterFirstSkips(before, rest, separator);
    assert rest[|separator|..] == id + call;
    UpToSlashStops(id, call);
  }

  /** Core's two ways to carry a reason: in the data itself, or in an object beside a reason code. */
  predicate Says(r: Response, reason: string) { r.data == Some(Text(reason)) || r.data == Some(Object(Some(reason))) }

  /**
   On a session path, a rejection with status 403 or 409 starts a recovery if and only if it states one of the
   five reasons, in either form; both token-binding reasons are among them.
   */
  lemma RejectionsAreClassified(id: string, call: string, r: Response)
    ensures InvalidSessionDetail(SessionPath(id, call), r).Some?
      <==> (r.status == 403 || r.status == 409) && exists reason :: reason in INVALID && Says(r, reason)
    ensures forall reason :: reason in INVALID && (r.status == 403 || r.status == 409) && Says(r, reason) ==>
      InvalidSessionDetail(SessionPath(id, call), r) == Some(reason)
    ensures "Hub session token binding mismatch" in INVALID && "Hub session has no token binding" in INVALID
  {
    SessionPathsAreRecognised(id, call);
    if InvalidSessionDetail(SessionPath(id, call), r).Some? {
      assert Says(r, DetailOf(r.data.value).value);
    }
  }

  /**
   In every run, a recovery of the live session, whatever its fates and however many lease conflicts it waits
   out, ends with a new session, and with the binding in step, if and only if it finishes.
   */
  lemma MismatchIsRepaired(ops: seq<Op>, auth: Fate, attempts: seq<Attempt>)
    requires Run(UNCONNECTED, ops).session.Some?
    ensures var l := Run(UNCONNECTED, ops);
      var (m, ending) := Perform(l, Recover(l.session.value, auth, attempts));
      && (ending == Finished <==> m.session != l.session)
      && (ending == Finished ==> m.session.Some? && m.session.value > l.session.value && InSync(m))
  {
    var l := Run(UNCONNECTED, ops);
    RunKeepsOrdered(ops);
    if auth == Done { EstablishOutcome(Authenticate(l, Done).0, attempts); }
  }

  /** Lease conflicts only delay it: after any number of them, one attempt that gets through repairs the binding. */
  lemma {:induction false} ConflictsOnlyDelay(l: Link, conflicts: seq<Attempt>, last: Attempt)
    requires Ordered(l) && l.token.Some?
    requires forall a :: a in conflicts ==> a.conflict && (a.expiring ==> a.auth == Done)
    requires !last.conflict && (last.expiring ==> last.auth == Done) && last.create == Done
    ensures Establish(l, conflicts + [last]).1 == Finished && InSync(Establish(l, conflicts + [last]).0)
    decreases |conflicts|
  {
    var attempts := conflicts + [last];
    EstablishOutcome(l, attempts);
    if conflicts != [] {
      assert attempts[1..] == conflicts[1..] + [last];
      var m := EnsureToken(l, attempts[0].expiring, attempts[0].auth, None).0;
      ConflictsOnlyDelay(m, conflicts[1..], last);
    }
  }
}
