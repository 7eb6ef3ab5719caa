/**
 * The authorization code exchange, with any number of `/oauth/token` requests interleaved.
 *
 * Each store call is one step, any request may crash between two steps (a store call that
 * fails before or after taking effect), the clock advances freely, and other parts of the
 * gateway may issue and revoke keys at any time. Client authentication has happened before
 * a request enters the model.
 */
module OAuthExchange {
  import opened Wrappers
  import opened OAuthStores

  /** The hashing parts: PKCE verification and the project id of a connection. */
  datatype Config = Config(pkce: (string, string) -> bool, projectOf: (string, string, string) -> string)

  const CODE_TTL_MS := 60000

  datatype Answer =
    | Token(keyId: string)
    | UnknownCode
    | Replayed
    | LostRace
    | CodeExpired
    | ClientMismatch
    | RedirectUriMismatch
    | PkceMismatch

  /** The store call a request waits for. */
  datatype Phase =
    | Reading
    | Marking(rec: CodeRecord)
    | RevokingReplay(issued: Issued)
    | Exchanging(rec: CodeRecord)
    | Recording(issued: Issued)
    | Answered(answer: Answer)
    | Crashed

  /** `marked` notes that this request is the one that marked the code consumed. */
  datatype Request = Request(codeHash: string, clientId: string, redirectUri: string, verifier: string, marked: bool, phase: Phase)

  /** History: which request drew which key, in which slot of the key store, from which code, and when. */
  datatype Issue = Issue(codeHash: string, request: nat, key: Issued, slot: nat, at: int)

  datatype System = System(codes: Codes, keys: seq<Entry>, requests: map<nat, Request>, now: int, issues: seq<Issue>)

  const START := System(map[], [], map[], 0, [])

  datatype Event =
    | Approve(codeHash: string, clientId: string, redirectUri: string, codeChallenge: string, userId: string, workspace: string)
    | Arrive(id: nat, codeHash: string, clientId: string, redirectUri: string, verifier: string)
    | GetCodeCall(id: nat)
    | MarkCall(id: nat)
    | IssueCall(id: nat, hash: string)
    | UpdateCall(id: nat)
    | RevokeCall(id: nat)
    | Crash(id: nat)
    | OtherIssue(entry: Entry)
    | OtherRevoke(projectId: string, keyId: string)
    | Tick(ms: nat)

  function To(s: System, id: nat, phase: Phase): System
    requires id in s.requests
  {
    s.(requests := s.requests[id := s.requests[id].(phase := phase)])
  }

  predicate FreshId(keys: seq<Entry>, keyId: string) {
    forall i :: 0 <= i < |keys| ==> keys[i].account.keyId != keyId
  }

  /** Why a request that won the code is refused, in the order of the checks. */
  function Refusal(cfg: Config, r: Request, rec: CodeRecord, now: int): Option<Answer> {
    if now > rec.expiresAt then Some(CodeExpired)
    else if r.clientId != rec.clientId then Some(ClientMismatch)
    else if r.redirectUri != rec.redirectUri then Some(RedirectUriMismatch)
    else if !cfg.pkce(r.verifier, rec.codeChallenge) then Some(PkceMismatch)
    else None
  }

  function AfterGetCode(s: System, id: nat): System
    requires id in s.requests
  {
    var h := s.requests[id].codeHash;
    if h !in s.codes then To(s, id, Answered(UnknownCode))
    else if !s.codes[h].consumed then To(s, id, Marking(s.codes[h]))
    else if s.codes[h].issued.Some? then To(s, id, RevokingReplay(s.codes[h].issued.value))
    else To(s, id, Answered(Replayed))
  }

  function AfterMarkCall(s: System, id: nat): System
    requires id in s.requests && s.requests[id].phase.Marking?
  {
    var r := s.requests[id];
    var (codes, won) := AfterMark(s.codes, r.codeHash);
    var r' := if won then r.(marked := true, phase := Exchanging(r.phase.rec)) else r.(phase := Answered(LostRace));
    s.(codes := codes, requests := s.requests[id := r'])
  }

  /** How a connection's key is labelled, cut at 64 characters. */
  function Label(clientId: string, workspace: string): string {
    var full := clientId + ":" + workspace;
    if |full| <= 64 then full else full[..64]
  }

  /** The checks, and the key; a hash whose key id is in use is not one the generator draws. */
  function AfterIssueCall(cfg: Config, s: System, id: nat, hash: string): System
    requires id in s.requests && s.requests[id].phase.Exchanging?
  {
    var r := s.requests[id];
    var rec := r.phase.rec;
    var refusal := Refusal(cfg, r, rec, s.now);
    var keyId := KeyIdFromHash(hash);
    if refusal.Some? then To(s, id, Answered(refusal.value))
    else if !FreshId(s.keys, keyId) then s
    else
      var project := cfg.projectOf(rec.userId, rec.workspace, r.clientId);
      var account := Normalized(IssueInput(None, Some(project), Some(rec.userId), Label(r.clientId, rec.workspace)), "", s.now, keyId);
      To(s, id, Recording(Issued(keyId, project)))
        .(keys := s.keys + [Entry(hash, account)],
          issues := s.issues + [Issue(r.codeHash, id, Issued(keyId, project), |s.keys|, s.now)])
  }

  function AfterUpdateCall(s: System, id: nat): System
    requires id in s.requests && s.requests[id].phase.Recording?
  {
    var issued := s.requests[id].phase.issued;
    To(s, id, Answered(Token(issued.keyId))).(codes := AfterUpdate(s.codes, s.requests[id].codeHash, issued))
  }

  function AfterRevokeCall(s: System, id: nat): System
    requires id in s.requests && s.requests[id].phase.RevokingReplay?
  {
    var issued := s.requests[id].phase.issued;
    To(s, id, Answered(Replayed)).(keys := AfterRevokeInProject(s.keys, issued.projectId, issued.keyId, s.now).0)
  }

  /** One step; an event that does not apply changes nothing. */
  function Step(cfg: Config, s: System, e: Event): System {
    match e
    case Approve(h, clientId, redirectUri, challenge, userId, workspace) =>
      if h in s.codes then s
      else s.(codes := s.codes[h := CodeRecord(clientId, redirectUri, challenge, userId, workspace, s.now + CODE_TTL_MS, false, None)])
    case Arrive(id, h, clientId, redirectUri, verifier) =>
      if id in s.requests then s
      else s.(requests := s.requests[id := Request(h, clientId, redirectUri, verifier, false, Reading)])
    case GetCodeCall(id) =>
      if id in s.requests && s.requests[id].phase.Reading? then AfterGetCode(s, id) else s
    case MarkCall(id) =>
      if id in s.requests && s.requests[id].phase.Marking? then AfterMarkCall(s, id) else s
    case IssueCall(id, hash) =>
      if id in s.requests && s.requests[id].phase.Exchanging? then AfterIssueCall(cfg, s, id, hash) else s
    case UpdateCall(id) =>
      if id in s.requests && s.requests[id].phase.Recording? then AfterUpdateCall(s, id) else s
    case RevokeCall(id) =>
      if id in s.requests && s.requests[id].phase.RevokingReplay? then AfterRevokeCall(s, id) else s
    case Crash(id) =>
      if id in s.requests && !s.requests[id].phase.Answered? then To(s, id, Crashed) else s
    case OtherIssue(entry) =>
      if FreshId(s.keys, entry.account.keyId) && entry.account.keyId == KeyIdFromHash(entry.hash)
      then s.(keys := s.keys + [entry]) else s
    case OtherRevoke(projectId, keyId) =>
      s.(keys := AfterRevokeInProject(s.keys, projectId, keyId, s.now).0)
    case Tick(ms) => s.(now := s.now + ms)
  }

  function RunEvents(cfg: Config, s: System, events: seq<Event>): System
    decreases |events|
  {
    if events == [] then s else RunEvents(cfg, Step(cfg, s, events[0]), events[1..])
  }

  // ----- the invariant ----------------------------------------------------------------------

  /** The part of a record that never changes. */
  predicate SameGrant(a: CodeRecord, b: CodeRecord) {
    a.(consumed := b.consumed, issued := b.issued) == b
  }

  predicate Consumed(s: System, h: string) {
    h in s.codes && s.codes[h].consumed
  }

  /** What a request knows at each phase. */
  predicate PhaseOk(s: System, r: Request) {
    && (r.marked ==> Consumed(s, r.codeHash))
    && match r.phase
       case Reading => !r.marked
       case Marking(rec) => !r.marked && r.codeHash in s.codes && SameGrant(rec, s.codes[r.codeHash])
       case RevokingReplay(_) => !r.marked && Consumed(s, r.codeHash)
       case Exchanging(rec) => r.marked && SameGrant(rec, s.codes[r.codeHash])
       case Recording(_) => r.marked
       case Answered(UnknownCode) => !r.marked
       case Answered(Replayed) => !r.marked && Consumed(s, r.codeHash)
       case Answered(LostRace) => !r.marked && Consumed(s, r.codeHash)
       case Answered(_) => r.marked
       case Crashed => true
  }

  ghost predicate RequestsOk(s: System) {
    forall id :: id in s.requests ==> PhaseOk(s, s.requests[id])
  }

  /** At most one request ever marks a code. */
  ghost predicate OneWinner(s: System) {
    forall i, j :: i in s.requests && j in s.requests && i != j && s.requests[i].marked && s.requests[j].marked ==>
      s.requests[i].codeHash != s.requests[j].codeHash
  }

  /** The request was entitled to a key from this code. */
  predicate Entitled(cfg: Config, s: System, i: Issue) {
    && i.request in s.requests && i.codeHash in s.codes
    && s.requests[i.request].codeHash == i.codeHash
    && Refusal(cfg, s.requests[i.request], s.codes[i.codeHash], i.at) == None
  }

  /** Where the issuing request stands. */
  predicate IssuerOk(s: System, i: Issue) {
    && i.request in s.requests
    && var r := s.requests[i.request];
       && r.marked && r.codeHash == i.codeHash
       && (r.phase == Recording(i.key) || r.phase == Answered(Token(i.key.keyId)) || r.phase == Crashed)
  }

  /** The key is in its slot of the key store. */
  predicate KeyStored(s: System, i: Issue) {
    && i.slot < |s.keys|
    && s.keys[i.slot].account.keyId == i.key.keyId
    && InProject(s.keys[i.slot].account, i.key.projectId)
  }

  ghost predicate IssuesOk(cfg: Config, s: System) {
    && (forall k :: 0 <= k < |s.issues| ==> Entitled(cfg, s, s.issues[k]) && IssuerOk(s, s.issues[k]) && KeyStored(s, s.issues[k]))
    && (forall k, l :: 0 <= k < l < |s.issues| ==> s.issues[k].codeHash != s.issues[l].codeHash)
  }

  ghost predicate HasIssue(s: System, h: string, key: Issued) {
    exists k :: 0 <= k < |s.issues| && s.issues[k].codeHash == h && s.issues[k].key == key
  }

  /** Keys named by codes and by requests were issued for that code. */
  ghost predicate NamesOk(s: System) {
    && (forall h :: h in s.codes && s.codes[h].issued.Some? ==> HasIssue(s, h, s.codes[h].issued.value))
    && (forall id :: id in s.requests && s.requests[id].phase.Recording? ==>
          HasIssue(s, s.requests[id].codeHash, s.requests[id].phase.issued))
  }

  ghost predicate Sound(cfg: Config, s: System) {
    DistinctIds(s.keys) && RequestsOk(s) && OneWinner(s) && IssuesOk(cfg, s) && NamesOk(s)
  }

  // ----- how little one step changes ----------------------------------------------------

  /** Grants are fixed and consumption is final. */
  lemma CodesGrow(cfg: Config, s: System, e: Event, h: string)
    requires h in s.codes
    ensures var s' := Step(cfg, s, e);
            h in s'.codes && SameGrant(s.codes[h], s'.codes[h]) && (s.codes[h].consumed ==> s'.codes[h].consumed)
  {
  }

  function RequestOf(e: Event): Option<nat> {
    match e
    case Arrive(id, _, _, _, _) => Some(id)
    case GetCodeCall(id) => Some(id)
    case MarkCall(id) => Some(id)
    case IssueCall(id, _) => Some(id)
    case UpdateCall(id) => Some(id)
    case RevokeCall(id) => Some(id)
    case Crash(id) => Some(id)
    case _ => None
  }

  lemma OthersStay(cfg: Config, s: System, e: Event, id: nat)
    requires RequestOf(e) != Some(id)
    ensures var s' := Step(cfg, s, e);
            (id in s'.requests <==> id in s.requests) && (id in s.requests ==> s'.requests[id] == s.requests[id])
  {
  }

  /** What identifies a request is fixed, and having marked is final. */
  lemma RequestsGrow(cfg: Config, s: System, e: Event, id: nat)
    requires id in s.requests
    ensures var s' := Step(cfg, s, e);
            && id in s'.requests && SameAsk(s.requests[id], s'.requests[id])
            && (s.requests[id].marked ==> s'.requests[id].marked)
            && (s.requests[id].phase.Answered? ==> s'.requests[id] == s.requests[id])
  {
    if RequestOf(e) != Some(id) {
      OthersStay(cfg, s, e, id);
    }
  }

  predicate SameAsk(a: Request, b: Request) {
    a.codeHash == b.codeHash && a.clientId == b.clientId && a.redirectUri == b.redirectUri && a.verifier == b.verifier
  }

  /** Keys are appended with fresh ids and only ever change by being revoked. */
  lemma KeysGrow(cfg: Config, s: System, e: Event)
    requires DistinctIds(s.keys)
    ensures var s' := Step(cfg, s, e);
            && DistinctIds(s'.keys) && |s.keys| <= |s'.keys|
            && forall i :: 0 <= i < |s.keys| ==>
                 s'.keys[i] == s.keys[i] || exists at :: s'.keys[i] == Revoking(s.keys[i], at)
  {
    match e {
      case RevokeCall(id) =>
        if id in s.requests && s.requests[id].phase.RevokingReplay? {
          var x := s.requests[id].phase.issued;
          RevokeKeepsIds(s.keys, x.projectId, x.keyId, s.now);
          RevokeOnlyRevokes(s.keys, x.projectId, x.keyId, s.now);
        }
      case OtherRevoke(p, k) =>
        RevokeKeepsIds(s.keys, p, k, s.now);
        RevokeOnlyRevokes(s.keys, p, k, s.now);
      case _ =>
    }
  }

  /** The log only grows, by one issue of the request that was exchanging. */
  lemma IssuesGrow(cfg: Config, s: System, e: Event)
    ensures var s' := Step(cfg, s, e);
            || s'.issues == s.issues
            || exists i :: s'.issues == s.issues + [i] && e.IssueCall? && i.request == e.id && e.id in s.requests
                           && s.requests[e.id].phase.Exchanging? && s.requests[e.id].codeHash == i.codeHash
                           && s'.requests[e.id].phase == Recording(i.key)
  {
    if e.IssueCall? && e.id in s.requests && s.requests[e.id].phase.Exchanging? {
      var s' := AfterIssueCall(cfg, s, e.id, e.hash);
      if s'.issues != s.issues {
        assert s'.issues == s.issues + [s'.issues[|s.issues|]];
      }
    }
  }

  // ----- every step keeps the invariant ---------------------------------------------------

  lemma PhaseOkSurvives(cfg: Config, s: System, e: Event, r: Request)
    requires PhaseOk(s, r)
    ensures PhaseOk(Step(cfg, s, e), r)
  {
    if r.codeHash in s.codes {
      CodesGrow(cfg, s, e, r.codeHash);
    }
  }

  lemma OwnPhaseOk(cfg: Config, s: System, e: Event, id: nat)
    requires RequestOf(e) == Some(id)
    requires id in s.requests ==> PhaseOk(s, s.requests[id])
    ensures var s' := Step(cfg, s, e); id in s'.requests ==> PhaseOk(s', s'.requests[id])
  {
    match e {
      case GetCodeCall(_) =>
      case MarkCall(_) =>
      case IssueCall(_, _) =>
      case _ =>
    }
  }

  lemma StepRequestsOk(cfg: Config, s: System, e: Event)
    requires RequestsOk(s)
    ensures RequestsOk(Step(cfg, s, e))
  {
    var s' := Step(cfg, s, e);
    forall id | id in s'.requests ensures PhaseOk(s', s'.requests[id]) {
      if RequestOf(e) == Some(id) {
        OwnPhaseOk(cfg, s, e, id);
      } else {
        OthersStay(cfg, s, e, id);
        PhaseOkSurvives(cfg, s, e, s.requests[id]);
      }
    }
  }

  /** A request becomes the winner of a code only by finding it unconsumed. */
  lemma NewWinner(cfg: Config, s: System, e: Event, id: nat)
    requires id in Step(cfg, s, e).requests && Step(cfg, s, e).requests[id].marked
    ensures || (id in s.requests && s.requests[id].marked && s.requests[id].codeHash == Step(cfg, s, e).requests[id].codeHash)
            || (RequestOf(e) == Some(id) && !Consumed(s, Step(cfg, s, e).requests[id].codeHash))
  {
    if RequestOf(e) != Some(id) {
      OthersStay(cfg, s, e, id);
    }
  }

  lemma StepOneWinner(cfg: Config, s: System, e: Event)
    requires RequestsOk(s) && OneWinner(s)
    ensures OneWinner(Step(cfg, s, e))
  {
    var s' := Step(cfg, s, e);
    forall i, j | i in s'.requests && j in s'.requests && i != j && s'.requests[i].marked && s'.requests[j].marked
      ensures s'.requests[i].codeHash != s'.requests[j].codeHash
    {
      NewWinner(cfg, s, e, i);
      NewWinner(cfg, s, e, j);
      if i in s.requests {
        assert PhaseOk(s, s.requests[i]);
      }
      if j in s.requests {
        assert PhaseOk(s, s.requests[j]);
      }
    }
  }

  lemma KeyStoredSurvives(cfg: Config, s: System, e: Event, i: Issue)
    requires DistinctIds(s.keys) && KeyStored(s, i)
    ensures KeyStored(Step(cfg, s, e), i)
  {
    KeysGrow(cfg, s, e);
  }

  lemma EntitledSurvives(cfg: Config, s: System, e: Event, i: Issue)
    requires Entitled(cfg, s, i)
    ensures Entitled(cfg, Step(cfg, s, e), i)
  {
    CodesGrow(cfg, s, e, i.codeHash);
    RequestsGrow(cfg, s, e, i.request);
  }

  lemma IssuerOkSurvives(cfg: Config, s: System, e: Event, i: Issue)
    requires IssuerOk(s, i)
    ensures IssuerOk(Step(cfg, s, e), i)
  {
    if RequestOf(e) != Some(i.request) {
      OthersStay(cfg, s, e, i.request);
    }
  }

  lemma NewIssueOk(cfg: Config, s: System, e: Event, i: Issue)
    requires RequestsOk(s)
    requires Step(cfg, s, e).issues == s.issues + [i]
    ensures var s' := Step(cfg, s, e); Entitled(cfg, s', i) && IssuerOk(s', i) && KeyStored(s', i)
  {
    var s' := Step(cfg, s, e);
    assert s'.issues[|s.issues|] == i;
    assert e.IssueCall? && PhaseOk(s, s.requests[e.id]);
  }

  /** A request that is still exchanging has no issue, and nobody else has one for its code. */
  lemma ExchangingIsFirst(cfg: Config, s: System, id: nat, k: nat)
    requires RequestsOk(s) && OneWinner(s) && IssuesOk(cfg, s)
    requires id in s.requests && s.requests[id].phase.Exchanging? && k < |s.issues|
    ensures s.issues[k].codeHash != s.requests[id].codeHash
  {
    assert IssuerOk(s, s.issues[k]) && PhaseOk(s, s.requests[id]);
  }

  lemma StepIssuesOk(cfg: Config, s: System, e: Event)
    requires Sound(cfg, s)
    ensures IssuesOk(cfg, Step(cfg, s, e))
  {
    var s' := Step(cfg, s, e);
    IssuesGrow(cfg, s, e);
    forall k | 0 <= k < |s'.issues|
      ensures Entitled(cfg, s', s'.issues[k]) && IssuerOk(s', s'.issues[k]) && KeyStored(s', s'.issues[k])
    {
      if k < |s.issues| {
        assert s'.issues[k] == s.issues[k];
        EntitledSurvives(cfg, s, e, s.issues[k]);
        IssuerOkSurvives(cfg, s, e, s.issues[k]);
        KeyStoredSurvives(cfg, s, e, s.issues[k]);
      } else {
        NewIssueOk(cfg, s, e, s'.issues[k]);
      }
    }
    forall k, l | 0 <= k < l < |s'.issues| ensures s'.issues[k].codeHash != s'.issues[l].codeHash {
      if l == |s.issues| {
        ExchangingIsFirst(cfg, s, e.id, k);
      }
    }
  }

  lemma HasIssueSurvives(cfg: Config, s: System, e: Event, h: string, key: Issued)
    requires HasIssue(s, h, key)
    ensures HasIssue(Step(cfg, s, e), h, key)
  {
    IssuesGrow(cfg, s, e);
    var k :| 0 <= k < |s.issues| && s.issues[k].codeHash == h && s.issues[k].key == key;
    assert Step(cfg, s, e).issues[k] == s.issues[k];
  }

  lemma NewName(cfg: Config, s: System, e: Event, id: nat)
    requires id in Step(cfg, s, e).requests && Step(cfg, s, e).requests[id].phase.Recording?
    requires !(id in s.requests && s.requests[id].phase.Recording?)
    ensures var r := Step(cfg, s, e).requests[id]; HasIssue(Step(cfg, s, e), r.codeHash, r.phase.issued)
  {
    var s' := Step(cfg, s, e);
    if RequestOf(e) != Some(id) {
      OthersStay(cfg, s, e, id);
    }
    var i := s'.issues[|s.issues|];
    assert i.codeHash == s'.requests[id].codeHash && i.key == s'.requests[id].phase.issued;
  }

  lemma RecordingStays(cfg: Config, s: System, e: Event, id: nat)
    requires id in s.requests && s.requests[id].phase.Recording?
    ensures var r := Step(cfg, s, e).requests; id in r && (r[id].phase.Recording? ==> r[id] == s.requests[id])
  {
    if RequestOf(e) != Some(id) {
      OthersStay(cfg, s, e, id);
    }
  }

  lemma CodeNames(cfg: Config, s: System, e: Event, h: string)
    requires h in Step(cfg, s, e).codes && Step(cfg, s, e).codes[h].issued.Some?
    ensures || (h in s.codes && s.codes[h].issued == Step(cfg, s, e).codes[h].issued)
            || (e.UpdateCall? && e.id in s.requests && s.requests[e.id].phase == Recording(Step(cfg, s, e).codes[h].issued.value)
                && s.requests[e.id].codeHash == h)
  {
  }

  lemma StepNamesOk(cfg: Config, s: System, e: Event)
    requires NamesOk(s)
    ensures NamesOk(Step(cfg, s, e))
  {
    var s' := Step(cfg, s, e);
    forall h | h in s'.codes && s'.codes[h].issued.Some? ensures HasIssue(s', h, s'.codes[h].issued.value) {
      CodeNames(cfg, s, e, h);
      HasIssueSurvives(cfg, s, e, h, s'.codes[h].issued.value);
    }
    forall id | id in s'.requests && s'.requests[id].phase.Recording?
      ensures HasIssue(s', s'.requests[id].codeHash, s'.requests[id].phase.issued)
    {
      if id in s.requests && s.requests[id].phase.Recording? {
        RecordingStays(cfg, s, e, id);
        HasIssueSurvives(cfg, s, e, s.requests[id].codeHash, s.requests[id].phase.issued);
      } else {
        NewName(cfg, s, e, id);
      }
    }
  }

  lemma StepIsSound(cfg: Config, s: System, e: Event)
    requires Sound(cfg, s)
    ensures Sound(cfg, Step(cfg, s, e))
  {
    KeysGrow(cfg, s, e);
    StepRequestsOk(cfg, s, e);
    StepOneWinner(cfg, s, e);
    StepIssuesOk(cfg, s, e);
    StepNamesOk(cfg, s, e);
  }

  lemma {:induction false} RunIsSound(cfg: Config, s: System, events: seq<Event>)
    requires Sound(cfg, s)
    ensures Sound(cfg, RunEvents(cfg, s, events))
    decreases |events|
  {
    if events != [] {
      StepIsSound(cfg, s, events[0]);
      RunIsSound(cfg, Step(cfg, s, events[0]), events[1..]);
    }
  }

  // ----- what every interleaving guarantees -------------------------------------------------

  /**
   * In every interleaving a code yields at most one key, and only to a request that
   * presented it unexpired with the code's own client, redirect URI and PKCE verifier.
   */
  lemma AtMostOneKeyPerCode(cfg: Config, events: seq<Event>)
    ensures var s := RunEvents(cfg, START, events);
            && (forall k, l :: 0 <= k < l < |s.issues| ==> s.issues[k].codeHash != s.issues[l].codeHash)
            && (forall k :: 0 <= k < |s.issues| ==>
                  var i := s.issues[k];
                  && i.request in s.requests && i.codeHash in s.codes && s.codes[i.codeHash].consumed
                  && var r, rec := s.requests[i.request], s.codes[i.codeHash];
                     && r.codeHash == i.codeHash
                     && i.at <= rec.expiresAt && r.clientId == rec.clientId && r.redirectUri == rec.redirectUri
                     && cfg.pkce(r.verifier, rec.codeChallenge))
  {
    RunIsSound(cfg, START, events);
    var s := RunEvents(cfg, START, events);
    forall k | 0 <= k < |s.issues| ensures Consumed(s, s.issues[k].codeHash) {
      assert IssuerOk(s, s.issues[k]) && PhaseOk(s, s.requests[s.issues[k].request]);
    }
    assert forall k :: 0 <= k < |s.issues| ==> Entitled(cfg, s, s.issues[k]);
  }

  /** Any attempt with a live code consumes it, and one that is then refused burns it: no key ever comes of it. */
  lemma FailedAttemptBurnsTheCode(cfg: Config, events: seq<Event>, id: nat)
    requires var s := RunEvents(cfg, START, events);
             id in s.requests && s.requests[id].phase.Answered? && s.requests[id].phase.answer != UnknownCode
    ensures var s := RunEvents(cfg, START, events);
            var r := s.requests[id];
            && Consumed(s, r.codeHash)
            && (r.phase.answer in {CodeExpired, ClientMismatch, RedirectUriMismatch, PkceMismatch} ==>
                  forall k :: 0 <= k < |s.issues| ==> s.issues[k].codeHash != r.codeHash)
  {
    RunIsSound(cfg, START, events);
    var s := RunEvents(cfg, START, events);
    assert PhaseOk(s, s.requests[id]);
    forall k | 0 <= k < |s.issues| && s.requests[id].marked && s.issues[k].codeHash == s.requests[id].codeHash
      ensures s.issues[k].request == id
    {
      assert IssuerOk(s, s.issues[k]);
    }
    assert forall k :: 0 <= k < |s.issues| ==> IssuerOk(s, s.issues[k]);
  }

  // ----- replays -----------------------------------------------------------------------------

  lemma DeadIsForEver(cfg: Config, s: System, e: Event, keyId: string)
    requires Dead(s.keys, keyId)
    ensures Dead(Step(cfg, s, e).keys, keyId)
  {
    var i :| 0 <= i < |s.keys| && s.keys[i].account.keyId == keyId;
    match e {
      case RevokeCall(id) =>
        if id in s.requests && s.requests[id].phase.RevokingReplay? {
          var x := s.requests[id].phase.issued;
          RevokeKeepsDead(s.keys, x.projectId, x.keyId, s.now, keyId);
        }
      case OtherRevoke(p, k) =>
        RevokeKeepsDead(s.keys, p, k, s.now, keyId);
      case _ =>
        assert Step(cfg, s, e).keys[i] == s.keys[i];
    }
  }

  lemma {:induction false} DeadThroughRun(cfg: Config, s: System, events: seq<Event>, keyId: string)
    requires Dead(s.keys, keyId)
    ensures Dead(RunEvents(cfg, s, events).keys, keyId)
    decreases |events|
  {
    if events != [] {
      DeadIsForEver(cfg, s, events[0], keyId);
      DeadThroughRun(cfg, Step(cfg, s, events[0]), events[1..], keyId);
    }
  }

  /** A recorded key stays recorded: no other key can take its place. */
  lemma RecordedStays(cfg: Config, s: System, e: Event, h: string)
    requires Sound(cfg, s) && h in s.codes && s.codes[h].issued.Some?
    ensures h in Step(cfg, s, e).codes && Step(cfg, s, e).codes[h].issued == s.codes[h].issued
  {
    assert HasIssue(s, h, s.codes[h].issued.value);
    if e.UpdateCall? && e.id in s.requests && s.requests[e.id].phase.Recording? && s.requests[e.id].codeHash == h {
      assert HasIssue(s, h, s.requests[e.id].phase.issued);
    }
  }

  lemma RecordedMeansConsumed(cfg: Config, s: System, h: string)
    requires Sound(cfg, s) && h in s.codes && s.codes[h].issued.Some?
    ensures s.codes[h].consumed
  {
    var k :| 0 <= k < |s.issues| && s.issues[k].codeHash == h && s.issues[k].key == s.codes[h].issued.value;
    assert IssuerOk(s, s.issues[k]) && PhaseOk(s, s.requests[s.issues[k].request]);
  }

  /** Revoking the recorded key finds it. */
  lemma RevokeKillsRecorded(cfg: Config, s: System, h: string, at: int)
    requires Sound(cfg, s) && h in s.codes && s.codes[h].issued.Some?
    ensures var x := s.codes[h].issued.value; Dead(AfterRevokeInProject(s.keys, x.projectId, x.keyId, at).0, x.keyId)
  {
    var x := s.codes[h].issued.value;
    var k :| 0 <= k < |s.issues| && s.issues[k].codeHash == h && s.issues[k].key == x;
    assert KeyStored(s, s.issues[k]);
    var slot := s.issues[k].slot;
    RevokeReaches(s.keys, x.projectId, x.keyId, at, slot);
    RevokeKeepsIds(s.keys, x.projectId, x.keyId, at);
    RevokeOnlyRevokes(s.keys, x.projectId, x.keyId, at);
    var after := AfterRevokeInProject(s.keys, x.projectId, x.keyId, at).0;
    assert after[slot].account.keyId == x.keyId;
  }

  /** A replay that started after the key was recorded: where it stands. */
  ghost predicate Replaying(s: System, id: nat, x: Issued) {
    && id in s.requests
    && var r := s.requests[id];
       && r.codeHash in s.codes && s.codes[r.codeHash].issued == Some(x)
       && match r.phase
          case Reading => true
          case RevokingReplay(y) => y == x
          case Answered(a) => a == Replayed && Dead(s.keys, x.keyId)
          case Crashed => true
          case _ => false
  }

  lemma StepKeepsReplaying(cfg: Config, s: System, e: Event, id: nat, x: Issued)
    requires Sound(cfg, s) && Replaying(s, id, x)
    ensures Replaying(Step(cfg, s, e), id, x)
  {
    var r := s.requests[id];
    RecordedStays(cfg, s, e, r.codeHash);
    RecordedMeansConsumed(cfg, s, r.codeHash);
    RequestsGrow(cfg, s, e, id);
    if r.phase.Answered? {
      DeadIsForEver(cfg, s, e, x.keyId);
    } else if RequestOf(e) != Some(id) {
      OthersStay(cfg, s, e, id);
    } else if e.RevokeCall? {
      RevokeKillsRecorded(cfg, s, r.codeHash, s.now);
    }
  }

  lemma {:induction false} RunKeepsReplaying(cfg: Config, s: System, events: seq<Event>, id: nat, x: Issued)
    requires Sound(cfg, s) && Replaying(s, id, x)
    ensures Replaying(RunEvents(cfg, s, events), id, x)
    decreases |events|
  {
    if events != [] {
      StepIsSound(cfg, s, events[0]);
      StepKeepsReplaying(cfg, s, events[0], id, x);
      RunKeepsReplaying(cfg, Step(cfg, s, events[0]), events[1..], id, x);
    }
  }

  /**
   * An authenticated replay that starts after the issuing request has recorded its key, in
   * any interleaving whatsoever: once the replay is answered, it is answered as a replay,
   * and the key is revoked for ever after.
   */
  lemma ReplayRevokesForEver(cfg: Config, before: seq<Event>, during: seq<Event>, after: seq<Event>, id: nat)
    requires var s := RunEvents(cfg, START, before);
             && id in s.requests && s.requests[id].phase.Reading?
             && s.requests[id].codeHash in s.codes && s.codes[s.requests[id].codeHash].issued.Some?
    requires var s := RunEvents(cfg, RunEvents(cfg, START, before), during);
             id in s.requests && s.requests[id].phase.Answered?
    ensures var s := RunEvents(cfg, START, before);
            var x := s.codes[s.requests[id].codeHash].issued.value;
            var answered := RunEvents(cfg, s, during);
            && answered.requests[id].phase.answer == Replayed
            && Dead(RunEvents(cfg, answered, after).keys, x.keyId)
  {
    var s := RunEvents(cfg, START, before);
    var x := s.codes[s.requests[id].codeHash].issued.value;
    RunIsSound(cfg, START, before);
    RunKeepsReplaying(cfg, s, during, id, x);
    DeadThroughRun(cfg, RunEvents(cfg, s, during), after, x.keyId);
  }

  /**
   * How far that guarantee reaches: of the requests for a code whose key is live, whether they
   * have yet to read the code or read it before it was marked, one revokes that key exactly
   * when it has yet to read the code and the key is recorded with it at that moment.
   */
  lemma ReplayRevokesExactlyWhenRecorded(cfg: Config, before: seq<Event>, id: nat, k: nat)
    requires var s := RunEvents(cfg, START, before);
             && id in s.requests && (s.requests[id].phase.Reading? || s.requests[id].phase.Marking?)
             && k < |s.issues| && s.issues[k].codeHash == s.requests[id].codeHash
             && s.issues[k].slot < |s.keys| && s.keys[s.issues[k].slot].account.status == Active
    ensures var s := RunEvents(cfg, START, before);
            var s' := Step(cfg, Step(cfg, Step(cfg, s, GetCodeCall(id)), MarkCall(id)), RevokeCall(id));
            && s'.requests[id].phase == Answered(if s.requests[id].phase.Reading? then Replayed else LostRace)
            && (Dead(s'.keys, s.issues[k].key.keyId)
                <==> s.requests[id].phase.Reading? && s.codes[s.requests[id].codeHash].issued.Some?)
  {
    RunIsSound(cfg, START, before);
    var s := RunEvents(cfg, START, before);
    var h, i := s.requests[id].codeHash, s.issues[k];
    assert IssuerOk(s, i) && PhaseOk(s, s.requests[i.request]) && KeyStored(s, i) && Entitled(cfg, s, i);
    assert Consumed(s, h);
    if s.requests[id].phase.Reading? && s.codes[h].issued.Some? {
      assert HasIssue(s, h, s.codes[h].issued.value);
      assert s.codes[h].issued.value == i.key;
      RevokeKillsRecorded(cfg, s, h, s.now);
    }
  }

  /** A request that read the code before it was marked, and comes too late to mark it itself. */
  predicate Losing(s: System, id: nat) {
    && id in s.requests && Consumed(s, s.requests[id].codeHash)
    && (s.requests[id].phase.Marking? || s.requests[id].phase == Answered(LostRace) || s.requests[id].phase.Crashed?)
  }

  lemma StepKeepsLosing(cfg: Config, s: System, e: Event, id: nat)
    requires Losing(s, id)
    ensures Losing(Step(cfg, s, e), id)
    ensures RequestOf(e) == Some(id) ==> Step(cfg, s, e).keys == s.keys
  {
    CodesGrow(cfg, s, e, s.requests[id].codeHash);
    RequestsGrow(cfg, s, e, id);
    if RequestOf(e) != Some(id) {
      OthersStay(cfg, s, e, id);
    }
  }

  lemma {:induction false} RunKeepsLosing(cfg: Config, s: System, events: seq<Event>, id: nat)
    requires Losing(s, id)
    ensures Losing(RunEvents(cfg, s, events), id)
    decreases |events|
  {
    if events != [] {
      StepKeepsLosing(cfg, s, events[0], id);
      RunKeepsLosing(cfg, Step(cfg, s, events[0]), events[1..], id);
    }
  }

  /**
   * Whoever read the code before it was marked and comes too late to mark it: in any
   * interleaving it is answered as the loser of the race, and no step of it touches a key.
   */
  lemma LoserRevokesNothing(cfg: Config, s: System, during: seq<Event>, e: Event, id: nat)
    requires id in s.requests && s.requests[id].phase.Marking? && Consumed(s, s.requests[id].codeHash)
    requires RequestOf(e) == Some(id)
    ensures var t := RunEvents(cfg, s, during);
            && id in t.requests && (t.requests[id].phase.Answered? ==> t.requests[id].phase.answer == LostRace)
            && Step(cfg, t, e).keys == t.keys
  {
    RunKeepsLosing(cfg, s, during, id);
    StepKeepsLosing(cfg, RunEvents(cfg, s, during), e, id);
  }

  lemma {:induction false} RunConcat(cfg: Config, s: System, a: seq<Event>, b: seq<Event>)
    ensures RunEvents(cfg, s, a + b) == RunEvents(cfg, RunEvents(cfg, s, a), b)
    decreases |a|
  {
    if a == [] {
      assert a + b == b;
    } else {
      assert (a + b)[0] == a[0] && (a + b)[1..] == a[1..] + b;
      RunConcat(cfg, Step(cfg, s, a[0]), a[1..], b);
    }
  }

  lemma RunFour(cfg: Config, s: System, a: Event, b: Event, c: Event, d: Event)
    ensures RunEvents(cfg, s, [a, b, c, d]) == Step(cfg, Step(cfg, Step(cfg, Step(cfg, s, a), b), c), d)
  {
    var s1 := Step(cfg, s, a);
    var s2 := Step(cfg, s1, b);
    var s3 := Step(cfg, s2, c);
    assert [a, b, c, d][1..] == [b, c, d] && [b, c, d][1..] == [c, d] && [c, d][1..] == [d] && [d][1..] == [];
    assert RunEvents(cfg, s3, [d]) == Step(cfg, s3, d);
    assert RunEvents(cfg, s2, [c, d]) == RunEvents(cfg, s3, [d]);
    assert RunEvents(cfg, s1, [b, c, d]) == RunEvents(cfg, s2, [c, d]);
  }

  /** The exchange, up to and including its mark. */
  function Marked(verifier: string, challenge: string): seq<Event> {
    [Approve("h", "dock", "uri", challenge, "user", "ws"), Arrive(0, "h", "dock", "uri", verifier), GetCodeCall(0), MarkCall(0)]
  }

  /** A replay that is read now, and then the rest of the exchange. */
  function ReplayThenRecord(verifier: string, hash: string): seq<Event> {
    [Arrive(1, "h", "dock", "uri", verifier), GetCodeCall(1), IssueCall(0, hash), UpdateCall(0)]
  }

  lemma AfterMarked(cfg: Config, verifier: string, challenge: string)
    ensures var rec := CodeRecord("dock", "uri", challenge, "user", "ws", CODE_TTL_MS, false, None);
            var exchanging := Request("h", "dock", "uri", verifier, true, Exchanging(rec));
            RunEvents(cfg, START, Marked(verifier, challenge)) == System(map["h" := rec.(consumed := true)], [], map[0 := exchanging], 0, [])
  {
    var run := Marked(verifier, challenge);
    RunFour(cfg, START, run[0], run[1], run[2], run[3]);
  }

  /** In that window the replay is answered without revoking, and the exchange then hands out a live key. */
  lemma ReplayInTheWindowLeavesTheKeyLive(cfg: Config, verifier: string, challenge: string, hash: string)
    requires cfg.pkce(verifier, challenge)
    ensures var s := RunEvents(cfg, START, Marked(verifier, challenge) + ReplayThenRecord(verifier, hash));
            && s.requests.Keys == {0, 1}
            && s.requests[1].phase == Answered(Replayed)
            && s.requests[0].phase == Answered(Token(KeyIdFromHash(hash)))
            && AccountFor(s.keys, hash).Some? && AccountFor(s.keys, hash).value.keyId == KeyIdFromHash(hash)
  {
    var run := ReplayThenRecord(verifier, hash);
    AfterMarked(cfg, verifier, challenge);
    RunConcat(cfg, START, Marked(verifier, challenge), run);
    var s := RunEvents(cfg, START, Marked(verifier, challenge));
    RunFour(cfg, s, run[0], run[1], run[2], run[3]);
    var s2 := Step(cfg, Step(cfg, s, run[0]), run[1]);
    assert s2.requests[1].phase == Answered(Replayed) && s2.requests[0] == s.requests[0];
    var s3 := Step(cfg, s2, run[2]);
    assert s3.requests[0].phase.Recording? && s3.requests[0].phase.issued.keyId == KeyIdFromHash(hash);
  }
}
