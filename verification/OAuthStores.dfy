/**
 * The in-memory stores behind the OAuth connect flow: authorization codes, one-time
 * handoff ids, and API keys.
 */
module OAuthStores {
  import opened Wrappers

  // ----- authorization codes ------------------------------------------------------------

  /** The key that a code was exchanged for, once that is recorded. */
  datatype Issued = Issued(keyId: string, projectId: string)

  datatype CodeRecord = CodeRecord(
    clientId: string, redirectUri: string, codeChallenge: string, userId: string, workspace: string,
    expiresAt: int, consumed: bool, issued: Option<Issued>)

  type Codes = map<string, CodeRecord>

  function AfterUpdate(codes: Codes, h: string, issued: Issued): Codes {
    if h in codes then codes[h := codes[h].(issued := Some(issued))] else codes
  }

  /** Marks a live code consumed; false for a code that is unknown or already consumed. */
  function AfterMark(codes: Codes, h: string): (Codes, bool) {
    if h !in codes || codes[h].consumed then (codes, false)
    else (codes[h := codes[h].(consumed := true)], true)
  }

  /** What is left of the one-time ids when those that expired by `now` are dropped. */
  function Unexpired(once: map<string, int>, now: int): map<string, int> {
    map k | k in once && once[k] > now :: once[k]
  }

  function AfterConsumeOnce(once: map<string, int>, key: string, expiresAt: int, now: int): (map<string, int>, bool) {
    var live := Unexpired(once, now);
    if key in live then (live, false) else (live[key := expiresAt], true)
  }

  class MemoryOAuthStore {
    var codes: Codes
    var once: map<string, int>

    constructor ()
      ensures codes == map[] && once == map[]
    {
      codes, once := map[], map[];
    }

    method PutCode(h: string, rec: CodeRecord)
      modifies this`codes
      ensures codes == old(codes)[h := rec]
    {
      codes := codes[h := rec];
    }

    method GetCode(h: string) returns (rec: Option<CodeRecord>)
      ensures rec.Some? <==> h in codes
      ensures rec.Some? ==> rec.value == codes[h]
    {
      rec := if h in codes then Some(codes[h]) else None;
    }

    method UpdateCode(h: string, issued: Issued)
      modifies this`codes
      ensures codes == AfterUpdate(old(codes), h, issued)
    {
      if h in codes {
        codes := codes[h := codes[h].(issued := Some(issued))];
      }
    }

    method MarkCodeConsumed(h: string) returns (won: bool)
      modifies this`codes
      ensures (codes, won) == AfterMark(old(codes), h)
    {
      if h !in codes || codes[h].consumed {
        return false;
      }
      codes := codes[h := codes[h].(consumed := true)];
      won := true;
    }

    /** Drops what has expired, one entry at a time, then takes the key unless it is held. */
    method ConsumeOnce(key: string, expiresAt: int, now: int) returns (first: bool)
      modifies this`once
      ensures (once, first) == AfterConsumeOnce(old(once), key, expiresAt, now)
    {
      var all := once;
      var left := once.Keys;
      while left != {}
        invariant left <= all.Keys
        invariant forall k :: k in once <==> k in all && (k in left || all[k] > now)
        invariant forall k :: k in once ==> once[k] == all[k]
        decreases |left|
      {
        var k :| k in left;
        left := left - {k};
        if all[k] <= now {
          once := once - {k};
        }
      }
      assert once == Unexpired(all, now);
      if key in once {
        return false;
      }
      once := once[key := expiresAt];
      first := true;
    }
  }

  datatype Consume = Consume(key: string, expiresAt: int, now: int)

  function AfterConsumes(once: map<string, int>, calls: seq<Consume>): map<string, int>
    decreases |calls|
  {
    if calls == [] then once
    else AfterConsumes(AfterConsumeOnce(once, calls[0].key, calls[0].expiresAt, calls[0].now).0, calls[1..])
  }

  /**
   * A one-time id is accepted once: whatever is consumed in between, and however often
   * expired entries are swept, a second use before its expiry is refused.
   */
  lemma {:induction false} OneTimeIdIsAcceptedOnce(once: map<string, int>, key: string, expiresAt: int, calls: seq<Consume>, now: int)
    requires key in once && once[key] == expiresAt && now < expiresAt
    requires forall c :: c in calls ==> c.now < expiresAt
    ensures !AfterConsumeOnce(AfterConsumes(once, calls), key, expiresAt, now).1
    decreases |calls|
  {
    if calls != [] {
      assert calls[0] in calls;
      OneTimeIdIsAcceptedOnce(AfterConsumeOnce(once, calls[0].key, calls[0].expiresAt, calls[0].now).0, key, expiresAt, calls[1..], now);
    }
  }

  /** An id is accepted exactly when it is not held or what is held has expired; what is held otherwise stays held until then. */
  lemma AcceptedExactlyWhenFree(once: map<string, int>, key: string, expiresAt: int, now: int)
    ensures var (after, first) := AfterConsumeOnce(once, key, expiresAt, now);
            && (first <==> key !in once || once[key] <= now)
            && key in after && after[key] == (if first then expiresAt else once[key])
            && (forall k :: k != key ==> (k in after <==> k in once && now < once[k]))
            && (forall k :: k in after && k != key ==> after[k] == once[k])
  {
    var live := Unexpired(once, now);
    assert key in live <==> key in once && once[key] > now;
  }

  // ----- API keys ------------------------------------------------------------------------

  datatype Status = Active | Revoked(at: int)

  datatype Account = Account(userId: string, projectId: Option<string>, keyLabel: string, status: Status, createdAt: int, keyId: string)

  datatype IssueInput = IssueInput(tenantId: Option<string>, projectId: Option<string>, userId: Option<string>, keyLabel: string)

  /** One stored key; the map is kept in insertion order. */
  datatype Entry = Entry(hash: string, account: Account)

  /** The public handle: `k_` and the first sixteen characters of the hash. */
  function KeyIdFromHash(hash: string): string {
    "k_" + if |hash| <= 16 then hash else hash[..16]
  }

  function Normalized(input: IssueInput, newId: string, at: int, keyId: string): Account {
    var fallback := input.projectId.GetOr(input.tenantId.GetOr(input.userId.GetOr(newId)));
    Account(input.userId.GetOr(fallback), input.projectId, input.keyLabel, Active, at, keyId)
  }

  predicate InProject(a: Account, projectId: string) {
    || a.projectId == Some(projectId)
    || ((a.projectId == None || a.projectId == Some("")) && a.userId == projectId)
  }

  function IndexOf(entries: seq<Entry>, hash: string): (i: nat)
    ensures i <= |entries|
    ensures i < |entries| ==> entries[i].hash == hash
    ensures forall j :: 0 <= j < i ==> entries[j].hash != hash
  {
    if entries == [] || entries[0].hash == hash then 0 else 1 + IndexOf(entries[1..], hash)
  }

  function Put(entries: seq<Entry>, e: Entry): seq<Entry> {
    var i := IndexOf(entries, e.hash);
    if i < |entries| then entries[i := e] else entries + [e]
  }

  function AccountFor(entries: seq<Entry>, hash: string): Option<Account> {
    var i := IndexOf(entries, hash);
    if i < |entries| && entries[i].account.status == Active then Some(entries[i].account) else None
  }

  predicate Matches(e: Entry, projectId: string, keyId: string) {
    e.account.keyId == keyId && InProject(e.account, projectId) && e.account.status == Active
  }

  function Revoking(e: Entry, at: int): Entry {
    e.(account := e.account.(status := Revoked(at)))
  }

  /** The first active match is revoked, and reported. */
  function AfterRevokeInProject(entries: seq<Entry>, projectId: string, keyId: string, at: int): (seq<Entry>, bool) {
    if entries == [] then (entries, false)
    else if Matches(entries[0], projectId, keyId) then ([Revoking(entries[0], at)] + entries[1..], true)
    else
      var (rest, ok) := AfterRevokeInProject(entries[1..], projectId, keyId, at);
      ([entries[0]] + rest, ok)
  }

  class MemoryApiKeyStore {
    var entries: seq<Entry>
    const hashOf: string -> string

    constructor (hashOf: string -> string)
      ensures entries == [] && this.hashOf == hashOf
    {
      this.entries, this.hashOf := [], hashOf;
    }

    method Resolve(key: string) returns (account: Option<Account>)
      ensures account == if key == "" then None else AccountFor(entries, hashOf(key))
    {
      if key == "" {
        return None;
      }
      var i := IndexOf(entries, hashOf(key));
      if i == |entries| || entries[i].account.status != Active {
        return None;
      }
      account := Some(entries[i].account);
    }

    /** `key` and `newId` are the random values drawn by the call. */
    method Issue(input: IssueInput, at: int, key: string, newId: string) returns (account: Account)
      modifies this`entries
      ensures account == Normalized(input, newId, at, KeyIdFromHash(hashOf(key)))
      ensures entries == Put(old(entries), Entry(hashOf(key), account))
    {
      account := Normalized(input, newId, at, KeyIdFromHash(hashOf(key)));
      entries := Put(entries, Entry(hashOf(key), account));
    }

    method RevokeInProject(projectId: string, keyId: string, at: int) returns (ok: bool)
      modifies this`entries
      ensures (entries, ok) == AfterRevokeInProject(old(entries), projectId, keyId, at)
    {
      var i := 0;
      while i < |entries| && !Matches(entries[i], projectId, keyId)
        invariant 0 <= i <= |entries| && entries == old(entries)
        invariant forall j :: 0 <= j < i ==> !Matches(entries[j], projectId, keyId)
      {
        i := i + 1;
      }
      RevokeAtFirstMatch(entries, projectId, keyId, at, i);
      ok := i < |entries|;
      if ok {
        entries := entries[i := Revoking(entries[i], at)];
      }
    }
  }

  lemma {:induction false} RevokeAtFirstMatch(entries: seq<Entry>, projectId: string, keyId: string, at: int, i: nat)
    requires i <= |entries| && forall j :: 0 <= j < i ==> !Matches(entries[j], projectId, keyId)
    requires i < |entries| ==> Matches(entries[i], projectId, keyId)
    ensures AfterRevokeInProject(entries, projectId, keyId, at)
         == if i < |entries| then (entries[i := Revoking(entries[i], at)], true) else (entries, false)
  {
    if i == 0 {
      if entries != [] {
        assert [Revoking(entries[0], at)] + entries[1..] == entries[0 := Revoking(entries[0], at)];
      }
    } else {
      RevokeAtFirstMatch(entries[1..], projectId, keyId, at, i - 1);
      assert entries == [entries[0]] + entries[1..];
      if i < |entries| {
        assert [entries[0]] + entries[1..][i - 1 := Revoking(entries[i], at)] == entries[i := Revoking(entries[i], at)];
      }
    }
  }

  /** Key ids are derived from fresh random hashes; they are taken to be distinct. */
  ghost predicate DistinctIds(entries: seq<Entry>) {
    forall i, j :: 0 <= i < j < |entries| ==> entries[i].account.keyId != entries[j].account.keyId
  }

  /** Revoking changes no entry but by making an active one revoked. */
  lemma {:induction false} RevokeOnlyRevokes(entries: seq<Entry>, projectId: string, keyId: string, at: int)
    ensures var after := AfterRevokeInProject(entries, projectId, keyId, at).0;
            && |after| == |entries|
            && forall i :: 0 <= i < |entries| ==>
                 after[i] == entries[i] || (Matches(entries[i], projectId, keyId) && after[i] == Revoking(entries[i], at))
  {
    if entries != [] && !Matches(entries[0], projectId, keyId) {
      RevokeOnlyRevokes(entries[1..], projectId, keyId, at);
    }
  }

  /** The key that is meant: active, with this id, in this project, or without one and of the user of this name. */
  predicate Meant(a: Account, projectId: string, keyId: string) {
    && a.status == Active && a.keyId == keyId
    && match a.projectId
       case Some(p) => p == projectId || (p == "" && a.userId == projectId)
       case None => a.userId == projectId
  }

  /** With distinct ids: exactly the key that is meant is revoked, and the reply says whether there is one. */
  lemma {:induction false} RevokedExactlyWhenMeant(entries: seq<Entry>, projectId: string, keyId: string, at: int)
    requires DistinctIds(entries)
    ensures var (after, ok) := AfterRevokeInProject(entries, projectId, keyId, at);
            && |after| == |entries|
            && (forall i :: 0 <= i < |entries| ==>
                  after[i] == if Meant(entries[i].account, projectId, keyId)
                              then Entry(entries[i].hash, entries[i].account.(status := Revoked(at))) else entries[i])
            && (ok <==> exists i :: 0 <= i < |entries| && Meant(entries[i].account, projectId, keyId))
  {
    if entries != [] {
      var first, rest := entries[0], entries[1..];
      assert Matches(first, projectId, keyId) == Meant(first.account, projectId, keyId);
      RevokedExactlyWhenMeant(rest, projectId, keyId, at);
      assert forall i :: 1 <= i < |entries| ==> entries[i] == rest[i - 1];
      if Matches(first, projectId, keyId) {
        assert forall i :: 1 <= i < |entries| ==> entries[i].account.keyId != first.account.keyId;
      }
    }
  }

  lemma RevokeKeepsIds(entries: seq<Entry>, projectId: string, keyId: string, at: int)
    requires DistinctIds(entries)
    ensures DistinctIds(AfterRevokeInProject(entries, projectId, keyId, at).0)
  {
    RevokeOnlyRevokes(entries, projectId, keyId, at);
  }

  /** Afterwards the key with that id is revoked, if it belongs to the project. */
  lemma {:induction false} RevokeReaches(entries: seq<Entry>, projectId: string, keyId: string, at: int, slot: nat)
    requires DistinctIds(entries) && slot < |entries|
    requires entries[slot].account.keyId == keyId && InProject(entries[slot].account, projectId)
    ensures var after := AfterRevokeInProject(entries, projectId, keyId, at).0;
            |after| == |entries| && after[slot].account.status.Revoked?
  {
    RevokeOnlyRevokes(entries, projectId, keyId, at);
    if slot > 0 {
      assert entries[0].account.keyId != entries[slot].account.keyId;
      RevokeReaches(entries[1..], projectId, keyId, at, slot - 1);
    }
  }

  /** The key with this id exists and can no longer authenticate. */
  ghost predicate Dead(entries: seq<Entry>, keyId: string) {
    && (exists i :: 0 <= i < |entries| && entries[i].account.keyId == keyId)
    && (forall i :: 0 <= i < |entries| && entries[i].account.keyId == keyId ==> entries[i].account.status.Revoked?)
  }

  lemma RevokeKeepsDead(entries: seq<Entry>, projectId: string, keyId: string, at: int, dead: string)
    requires Dead(entries, dead)
    ensures Dead(AfterRevokeInProject(entries, projectId, keyId, at).0, dead)
  {
    RevokeOnlyRevokes(entries, projectId, keyId, at);
    var after := AfterRevokeInProject(entries, projectId, keyId, at).0;
    var i :| 0 <= i < |entries| && entries[i].account.keyId == dead;
    assert after[i].account.keyId == dead;
  }

  /** A dead key resolves to nothing. */
  lemma DeadKeysDoNotResolve(entries: seq<Entry>, hash: string, keyId: string)
    requires Dead(entries, keyId)
    ensures AccountFor(entries, hash) == None || AccountFor(entries, hash).value.keyId != keyId
  {
  }

  lemma {:induction false} IndexUnique(entries: seq<Entry>, hash: string, i: nat)
    requires i < |entries| && entries[i].hash == hash && forall j :: 0 <= j < i ==> entries[j].hash != hash
    ensures IndexOf(entries, hash) == i
  {
    if i > 0 {
      IndexUnique(entries[1..], hash, i - 1);
    }
  }

  /** Storing a key makes that key resolve to its account, and changes what no other key resolves to. */
  lemma IssuedKeyResolves(entries: seq<Entry>, e: Entry, other: string)
    requires e.account.status == Active
    ensures AccountFor(Put(entries, e), e.hash) == Some(e.account)
    ensures other != e.hash ==> AccountFor(Put(entries, e), other) == AccountFor(entries, other)
  {
    var after, i := Put(entries, e), IndexOf(entries, e.hash);
    assert after[i] == e && forall j :: 0 <= j < |entries| && j != i ==> after[j] == entries[j];
    IndexUnique(after, e.hash, i);
    var k := IndexOf(entries, other);
    if other != e.hash && k < |entries| {
      IndexUnique(after, other, k);
    }
  }

  /** An issued account is active, carries the key's id and lies in the project it was issued for. */
  lemma IssuedAccountIsInItsProject(input: IssueInput, newId: string, at: int, hash: string)
    ensures var a := Normalized(input, newId, at, KeyIdFromHash(hash));
            && a.status == Active && a.keyId == KeyIdFromHash(hash)
            && (input.projectId.Some? ==> InProject(a, input.projectId.value))
            && (input.projectId.None? && input.tenantId.None? ==> InProject(a, input.userId.GetOr(newId)))
  {
  }
}
