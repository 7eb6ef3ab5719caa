/**
 * Whose key a token request is given.
 *
 * Everything is traced back to the events of the run: a key belongs to the user who approved
 * the code, in the project of that user, workspace and client, and went to a request that
 * came with the approved client, redirect URI and verifier before the code expired.
 */
module OAuthGrants {
  import opened Wrappers
  import opened OAuthStores
  import opened OAuthExchange

  /** The time after some events. */
  function Clock(events: seq<Event>): int {
    if events == [] then 0
    else Clock(events[..|events| - 1]) + match events[|events| - 1] case Tick(ms) => ms case _ => 0
  }

  /** The record under `h` says what one approval said, and expires a minute after it. */
  predicate ApprovedAt(events: seq<Event>, h: string, rec: CodeRecord, k: nat)
    requires k < |events|
  {
    && events[k] == Approve(h, rec.clientId, rec.redirectUri, rec.codeChallenge, rec.userId, rec.workspace)
    && rec.expiresAt == Clock(events[..k]) + 60000
  }

  ghost predicate Approved(events: seq<Event>, h: string, rec: CodeRecord) {
    exists k :: 0 <= k < |events| && ApprovedAt(events, h, rec, k)
  }

  /** A request says what it said when it arrived. */
  ghost predicate Arrived(events: seq<Event>, id: nat, r: Request) {
    Arrive(id, r.codeHash, r.clientId, r.redirectUri, r.verifier) in events
  }

  /** A key is issued at the time, and with the hash, of a call in the run. */
  predicate IssuedAt(events: seq<Event>, i: Issue, hash: string, k: nat)
    requires k < |events|
  {
    events[k] == IssueCall(i.request, hash) && i.at == Clock(events[..k])
  }

  ghost predicate IssuedDuring(events: seq<Event>, i: Issue, hash: string) {
    exists k :: 0 <= k < |events| && IssuedAt(events, i, hash, k)
  }

  function First(n: nat, text: string): string {
    if |text| <= n then text else text[..n]
  }

  /** The account in an issue's slot: the record's user, in the project of that user, workspace and client. */
  predicate BelongsTo(cfg: Config, account: Account, i: Issue, rec: CodeRecord) {
    && account.userId == rec.userId
    && account.projectId == Some(cfg.projectOf(rec.userId, rec.workspace, rec.clientId))
    && account.keyLabel == First(64, rec.clientId + ":" + rec.workspace)
    && account.createdAt == i.at
    && account.keyId == i.key.keyId && account.projectId == Some(i.key.projectId)
  }

  /** Every stored key has the id that its hash begins with. */
  ghost predicate IdsFromHashes(keys: seq<Entry>) {
    forall j :: 0 <= j < |keys| ==> keys[j].account.keyId == "k_" + First(16, keys[j].hash)
  }

  predicate GrantOk(cfg: Config, s: System, i: Issue) {
    && i.codeHash in s.codes && i.slot < |s.keys|
    && BelongsTo(cfg, s.keys[i.slot].account, i, s.codes[i.codeHash])
  }

  /** Once the request is answered with its key, the key is recorded with the code. */
  predicate RecordedOk(s: System, i: Issue) {
    i.request in s.requests && s.requests[i.request].phase.Answered? ==> i.codeHash in s.codes && s.codes[i.codeHash].issued == Some(i.key)
  }

  predicate HasToken(s: System, id: nat) {
    id in s.requests && s.requests[id].phase.Answered? && s.requests[id].phase.answer.Token?
  }

  ghost predicate IssuedTo(s: System, id: nat, keyId: string) {
    exists k :: 0 <= k < |s.issues| && s.issues[k].request == id && s.issues[k].key.keyId == keyId
  }

  /** A request that is answered with a key has been issued that key. */
  ghost predicate TokenOk(s: System, id: nat) {
    HasToken(s, id) ==> IssuedTo(s, id, s.requests[id].phase.answer.keyId)
  }

  ghost predicate GrantsOk(cfg: Config, s: System) {
    && IdsFromHashes(s.keys)
    && (forall k :: 0 <= k < |s.issues| ==> GrantOk(cfg, s, s.issues[k]) && RecordedOk(s, s.issues[k]))
    && (forall id :: TokenOk(s, id))
  }

  ghost predicate TracedBack(events: seq<Event>, s: System) {
    && s.now == Clock(events)
    && (forall h :: h in s.codes ==> Approved(events, h, s.codes[h]))
    && (forall id :: id in s.requests ==> Arrived(events, id, s.requests[id]))
    && (forall k :: 0 <= k < |s.issues| ==> s.issues[k].slot < |s.keys| && IssuedDuring(events, s.issues[k], s.keys[s.issues[k].slot].hash))
  }

  lemma RunSnoc(cfg: Config, events: seq<Event>, e: Event)
    ensures RunEvents(cfg, START, events + [e]) == Step(cfg, RunEvents(cfg, START, events), e)
  {
    RunConcat(cfg, START, events, [e]);
    assert [e][1..] == [];
  }

  lemma ApprovedLonger(events: seq<Event>, e: Event, h: string, rec: CodeRecord)
    requires Approved(events, h, rec)
    ensures Approved(events + [e], h, rec)
  {
    var k :| 0 <= k < |events| && ApprovedAt(events, h, rec, k);
    assert (events + [e])[..k] == events[..k];
    assert ApprovedAt(events + [e], h, rec, k);
  }

  /** What an approval says does not depend on whether the code has been used since. */
  lemma ApprovedGrant(events: seq<Event>, h: string, a: CodeRecord, b: CodeRecord)
    requires Approved(events, h, a) && SameGrant(a, b)
    ensures Approved(events, h, b)
  {
    var k :| 0 <= k < |events| && ApprovedAt(events, h, a, k);
    assert b == a.(consumed := b.consumed, issued := b.issued);
    assert ApprovedAt(events, h, b, k);
  }

  lemma CodesTracedBack(cfg: Config, events: seq<Event>, s: System, e: Event, h: string)
    requires TracedBack(events, s) && h in Step(cfg, s, e).codes
    ensures Approved(events + [e], h, Step(cfg, s, e).codes[h])
  {
    var rec := Step(cfg, s, e).codes[h];
    if h in s.codes {
      CodesGrow(cfg, s, e, h);
      ApprovedLonger(events, e, h, s.codes[h]);
      ApprovedGrant(events + [e], h, s.codes[h], rec);
    } else {
      assert (events + [e])[..|events|] == events;
      assert ApprovedAt(events + [e], h, rec, |events|);
    }
  }

  lemma RequestsTracedBack(cfg: Config, events: seq<Event>, s: System, e: Event, id: nat)
    requires TracedBack(events, s) && id in Step(cfg, s, e).requests
    ensures Arrived(events + [e], id, Step(cfg, s, e).requests[id])
  {
    if id in s.requests {
      RequestsGrow(cfg, s, e, id);
    } else if RequestOf(e) != Some(id) {
      OthersStay(cfg, s, e, id);
    }
  }

  lemma IssuedDuringLonger(events: seq<Event>, e: Event, i: Issue, hash: string)
    requires IssuedDuring(events, i, hash)
    ensures IssuedDuring(events + [e], i, hash)
  {
    var k :| 0 <= k < |events| && IssuedAt(events, i, hash, k);
    assert (events + [e])[..k] == events[..k];
    assert IssuedAt(events + [e], i, hash, k);
  }

  lemma IssuesTracedBack(cfg: Config, events: seq<Event>, s: System, e: Event, k: nat)
    requires TracedBack(events, s) && DistinctIds(s.keys) && k < |Step(cfg, s, e).issues|
    ensures var s' := Step(cfg, s, e);
            s'.issues[k].slot < |s'.keys| && IssuedDuring(events + [e], s'.issues[k], s'.keys[s'.issues[k].slot].hash)
  {
    var s' := Step(cfg, s, e);
    KeysGrow(cfg, s, e);
    IssuesGrow(cfg, s, e);
    if k < |s.issues| {
      var i := s.issues[k];
      assert s'.issues[k] == i && s'.keys[i.slot].hash == s.keys[i.slot].hash;
      IssuedDuringLonger(events, e, i, s.keys[i.slot].hash);
    } else {
      assert (events + [e])[..|events|] == events;
      assert IssuedAt(events + [e], s'.issues[k], e.hash, |events|);
    }
  }

  lemma StepTracedBack(cfg: Config, events: seq<Event>, s: System, e: Event)
    requires TracedBack(events, s) && DistinctIds(s.keys)
    ensures TracedBack(events + [e], Step(cfg, s, e))
  {
    var s' := Step(cfg, s, e);
    assert (events + [e])[..|events|] == events;
    forall h | h in s'.codes ensures Approved(events + [e], h, s'.codes[h]) {
      CodesTracedBack(cfg, events, s, e, h);
    }
    forall id | id in s'.requests ensures Arrived(events + [e], id, s'.requests[id]) {
      RequestsTracedBack(cfg, events, s, e, id);
    }
    forall k | 0 <= k < |s'.issues|
      ensures s'.issues[k].slot < |s'.keys| && IssuedDuring(events + [e], s'.issues[k], s'.keys[s'.issues[k].slot].hash)
    {
      IssuesTracedBack(cfg, events, s, e, k);
    }
  }

  lemma {:induction false} RunTracedBack(cfg: Config, events: seq<Event>)
    ensures TracedBack(events, RunEvents(cfg, START, events))
  {
    if events != [] {
      var init, e := events[..|events| - 1], events[|events| - 1];
      assert events == init + [e];
      RunTracedBack(cfg, init);
      RunIsSound(cfg, START, init);
      RunSnoc(cfg, init, e);
      StepTracedBack(cfg, init, RunEvents(cfg, START, init), e);
    }
  }

  lemma IdOfHash(hash: string)
    ensures KeyIdFromHash(hash) == "k_" + First(16, hash)
  {
  }

  /** A new entry is the last one, and its id comes from its hash. */
  lemma NewEntryId(cfg: Config, s: System, e: Event, j: nat)
    requires DistinctIds(s.keys) && |s.keys| <= j < |Step(cfg, s, e).keys|
    ensures var entry := Step(cfg, s, e).keys[j]; entry.account.keyId == KeyIdFromHash(entry.hash)
  {
    match e {
      case RevokeCall(id) =>
        if id in s.requests && s.requests[id].phase.RevokingReplay? {
          RevokeOnlyRevokes(s.keys, s.requests[id].phase.issued.projectId, s.requests[id].phase.issued.keyId, s.now);
        }
      case OtherRevoke(projectId, keyId) =>
        RevokeOnlyRevokes(s.keys, projectId, keyId, s.now);
      case _ =>
    }
  }

  lemma StepKeepsIds(cfg: Config, s: System, e: Event)
    requires DistinctIds(s.keys) && IdsFromHashes(s.keys)
    ensures IdsFromHashes(Step(cfg, s, e).keys)
  {
    KeysGrow(cfg, s, e);
    var keys := Step(cfg, s, e).keys;
    forall j | 0 <= j < |keys| ensures keys[j].account.keyId == "k_" + First(16, keys[j].hash) {
      if j < |s.keys| {
        assert s.keys[j].account.keyId == "k_" + First(16, s.keys[j].hash);
      } else {
        NewEntryId(cfg, s, e, j);
        IdOfHash(keys[j].hash);
      }
    }
  }

  lemma GrantSurvives(cfg: Config, s: System, e: Event, i: Issue)
    requires DistinctIds(s.keys) && GrantOk(cfg, s, i)
    ensures GrantOk(cfg, Step(cfg, s, e), i)
  {
    KeysGrow(cfg, s, e);
    CodesGrow(cfg, s, e, i.codeHash);
  }

  lemma RecordedSurvives(cfg: Config, s: System, e: Event, i: Issue)
    requires Sound(cfg, s) && IssuerOk(s, i) && RecordedOk(s, i) && GrantOk(cfg, s, i)
    ensures RecordedOk(Step(cfg, s, e), i)
  {
    CodesGrow(cfg, s, e, i.codeHash);
    if s.codes[i.codeHash].issued.Some? {
      RecordedStays(cfg, s, e, i.codeHash);
    }
    if RequestOf(e) != Some(i.request) {
      OthersStay(cfg, s, e, i.request);
    }
  }

  lemma IssuedToSurvives(cfg: Config, s: System, e: Event, id: nat, keyId: string)
    requires IssuedTo(s, id, keyId)
    ensures IssuedTo(Step(cfg, s, e), id, keyId)
  {
    IssuesGrow(cfg, s, e);
    var k :| 0 <= k < |s.issues| && s.issues[k].request == id && s.issues[k].key.keyId == keyId;
    assert Step(cfg, s, e).issues[k] == s.issues[k];
  }

  /** A token comes of a recording only. */
  lemma TokenFromRecording(cfg: Config, s: System, e: Event, id: nat)
    requires Sound(cfg, s) && HasToken(Step(cfg, s, e), id) && !HasToken(s, id)
    ensures id in s.requests && s.requests[id].phase.Recording?
    ensures Step(cfg, s, e).requests[id].phase.answer.keyId == s.requests[id].phase.issued.keyId
  {
    if RequestOf(e) != Some(id) {
      OthersStay(cfg, s, e, id);
    }
  }

  lemma RecordingIsIssued(cfg: Config, s: System, id: nat)
    requires Sound(cfg, s) && id in s.requests && s.requests[id].phase.Recording?
    ensures IssuedTo(s, id, s.requests[id].phase.issued.keyId)
  {
    var h, x := s.requests[id].codeHash, s.requests[id].phase.issued;
    var k :| 0 <= k < |s.issues| && s.issues[k].codeHash == h && s.issues[k].key == x;
    assert IssuerOk(s, s.issues[k]) && PhaseOk(s, s.requests[id]);
  }

  lemma TokenSurvives(cfg: Config, s: System, e: Event, id: nat)
    requires Sound(cfg, s) && TokenOk(s, id)
    ensures TokenOk(Step(cfg, s, e), id)
  {
    if HasToken(Step(cfg, s, e), id) {
      if HasToken(s, id) {
        RequestsGrow(cfg, s, e, id);
        IssuedToSurvives(cfg, s, e, id, s.requests[id].phase.answer.keyId);
      } else {
        TokenFromRecording(cfg, s, e, id);
        RecordingIsIssued(cfg, s, id);
        IssuedToSurvives(cfg, s, e, id, s.requests[id].phase.issued.keyId);
      }
    }
  }

  lemma NewGrantOk(cfg: Config, s: System, e: Event, i: Issue)
    requires RequestsOk(s)
    requires Step(cfg, s, e).issues == s.issues + [i]
    ensures GrantOk(cfg, Step(cfg, s, e), i) && RecordedOk(Step(cfg, s, e), i)
  {
    var s' := Step(cfg, s, e);
    assert s'.issues[|s.issues|] == i;
    assert e.IssueCall? && PhaseOk(s, s.requests[e.id]);
    assert s'.keys[|s.keys|] == s'.keys[i.slot];
  }

  lemma StepGrantsOk(cfg: Config, s: System, e: Event)
    requires Sound(cfg, s) && GrantsOk(cfg, s)
    ensures GrantsOk(cfg, Step(cfg, s, e))
  {
    var s' := Step(cfg, s, e);
    StepKeepsIds(cfg, s, e);
    IssuesGrow(cfg, s, e);
    forall id ensures TokenOk(s', id) {
      TokenSurvives(cfg, s, e, id);
    }
    forall k | 0 <= k < |s'.issues| ensures GrantOk(cfg, s', s'.issues[k]) && RecordedOk(s', s'.issues[k]) {
      if k < |s.issues| {
        assert s'.issues[k] == s.issues[k] && IssuerOk(s, s.issues[k]);
        GrantSurvives(cfg, s, e, s.issues[k]);
        RecordedSurvives(cfg, s, e, s.issues[k]);
      } else {
        NewGrantOk(cfg, s, e, s'.issues[k]);
      }
    }
  }

  lemma {:induction false} RunGrantsOk(cfg: Config, s: System, events: seq<Event>)
    requires Sound(cfg, s) && GrantsOk(cfg, s)
    ensures GrantsOk(cfg, RunEvents(cfg, s, events))
    decreases |events|
  {
    if events != [] {
      StepIsSound(cfg, s, events[0]);
      StepGrantsOk(cfg, s, events[0]);
      RunGrantsOk(cfg, Step(cfg, s, events[0]), events[1..]);
    }
  }

  /** No two stored keys share a hash, so a hash finds its own entry. */
  lemma HashFindsSlot(keys: seq<Entry>, slot: nat)
    requires DistinctIds(keys) && IdsFromHashes(keys) && slot < |keys|
    ensures AccountFor(keys, keys[slot].hash) == if keys[slot].account.status == Active then Some(keys[slot].account) else None
  {
    forall j | 0 <= j < slot ensures keys[j].hash != keys[slot].hash {
      assert keys[j].account.keyId != keys[slot].account.keyId;
    }
    IndexUnique(keys, keys[slot].hash, slot);
  }

  /**
   * In every interleaving, for every key that was issued: somebody approved its code, and the
   * key is that user's, in the project and with the label of that user, workspace and client;
   * it went to a request that arrived with the approved client and redirect URI and a verifier
   * for the approved challenge, no later than a minute after the approval; once that request is
   * answered the key is recorded with the code; and it is what its hash authenticates as, while
   * it is not revoked.
   */
  lemma KeysBelongToTheApprover(cfg: Config, events: seq<Event>, k: nat)
    requires k < |RunEvents(cfg, START, events).issues|
    ensures var s := RunEvents(cfg, START, events);
            var i := s.issues[k];
            && i.codeHash in s.codes && i.request in s.requests && i.slot < |s.keys|
            && var rec, r, entry := s.codes[i.codeHash], s.requests[i.request], s.keys[i.slot];
               && Approved(events, i.codeHash, rec) && IssuedDuring(events, i, entry.hash)
               && Arrive(i.request, i.codeHash, rec.clientId, rec.redirectUri, r.verifier) in events
               && cfg.pkce(r.verifier, rec.codeChallenge) && i.at <= rec.expiresAt
               && BelongsTo(cfg, entry.account, i, rec)
               && (r.phase.Answered? ==> r.phase.answer == Token(i.key.keyId) && rec.issued == Some(i.key))
               && entry.account.keyId == "k_" + First(16, entry.hash)
               && AccountFor(s.keys, entry.hash) == if entry.account.status == Active then Some(entry.account) else None
  {
    var s := RunEvents(cfg, START, events);
    RunIsSound(cfg, START, events);
    RunGrantsOk(cfg, START, events);
    RunTracedBack(cfg, events);
    AtMostOneKeyPerCode(cfg, events);
    assert GrantOk(cfg, s, s.issues[k]) && RecordedOk(s, s.issues[k]) && IssuerOk(s, s.issues[k]);
    assert Arrived(events, s.issues[k].request, s.requests[s.issues[k].request]);
    HashFindsSlot(s.keys, s.issues[k].slot);
  }

  /**
   * A request that won its code is answered at its checks exactly as the approval, the request
   * and the clock say, the first failing check deciding; it gets a key when all of them hold.
   */
  lemma RefusedExactlyByTheChecks(cfg: Config, before: seq<Event>, id: nat, hash: string)
    requires var s := RunEvents(cfg, START, before); id in s.requests && s.requests[id].phase.Exchanging?
    requires FreshId(RunEvents(cfg, START, before).keys, KeyIdFromHash(hash))
    ensures var s := RunEvents(cfg, START, before);
            var s', r := Step(cfg, s, IssueCall(id, hash)), s.requests[id];
            && r.codeHash in s.codes
            && var rec := s.codes[r.codeHash];
               var inTime, ownClient, ownUri := Clock(before) <= rec.expiresAt, r.clientId == rec.clientId, r.redirectUri == rec.redirectUri;
               var proven := cfg.pkce(r.verifier, rec.codeChallenge);
               && (s'.requests[id].phase == Answered(CodeExpired) <==> !inTime)
               && (s'.requests[id].phase == Answered(ClientMismatch) <==> inTime && !ownClient)
               && (s'.requests[id].phase == Answered(RedirectUriMismatch) <==> inTime && ownClient && !ownUri)
               && (s'.requests[id].phase == Answered(PkceMismatch) <==> inTime && ownClient && ownUri && !proven)
               && (|s'.issues| == |s.issues| + 1 <==> inTime && ownClient && ownUri && proven)
  {
    RunIsSound(cfg, START, before);
    RunTracedBack(cfg, before);
    var s := RunEvents(cfg, START, before);
    assert PhaseOk(s, s.requests[id]);
  }

  /** Nobody is answered with a key but the request that it was issued to. */
  lemma TokensAreIssued(cfg: Config, events: seq<Event>, id: nat, keyId: string)
    requires var s := RunEvents(cfg, START, events); id in s.requests && s.requests[id].phase == Answered(Token(keyId))
    ensures IssuedTo(RunEvents(cfg, START, events), id, keyId)
  {
    RunIsSound(cfg, START, events);
    RunGrantsOk(cfg, START, events);
    assert TokenOk(RunEvents(cfg, START, events), id);
  }

  /** Nothing keeps the rest of the world from acting: requests crash, keys are issued and revoked elsewhere, and time passes. */
  lemma OthersMayAct(cfg: Config, s: System, id: nat, entry: Entry, projectId: string, keyId: string, ms: nat, slot: nat)
    requires id in s.requests && !s.requests[id].phase.Answered?
    requires FreshId(s.keys, entry.account.keyId) && entry.account.keyId == "k_" + First(16, entry.hash)
    requires DistinctIds(s.keys) && slot < |s.keys|
    requires s.keys[slot].account.keyId == keyId && InProject(s.keys[slot].account, projectId)
    ensures Step(cfg, s, Crash(id)).requests[id].phase == Crashed
    ensures entry in Step(cfg, s, OtherIssue(entry)).keys
    ensures slot < |Step(cfg, s, OtherRevoke(projectId, keyId)).keys|
    ensures Step(cfg, s, OtherRevoke(projectId, keyId)).keys[slot].account.status.Revoked?
    ensures Step(cfg, s, Tick(ms)).now == s.now + ms
  {
    IdOfHash(entry.hash);
    assert (s.keys + [entry])[|s.keys|] == entry;
    RevokeReaches(s.keys, projectId, keyId, s.now, slot);
  }
}
