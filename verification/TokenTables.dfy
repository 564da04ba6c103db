/**
 * The five SQLite tables behind the OAuth token endpoint, and what each transaction or single
 * statement on them means. A raw token, code or verifier is represented by its digest, so presenting a
 * token and presenting its hash are the same thing here.
 */
module TokenTables {
  import opened Prelude
  import opened Scopes
  import Text

  type Token = string
  type Instant = nat

  const MINUTE: nat := 60_000_000_000
  const CODE_LIFE: nat := 5 * MINUTE
  const ACCESS_LIFE: nat := 120 * MINUTE
  const REFRESH_LIFE: nat := 14 * 24 * 60 * MINUTE

  datatype Via = Operator | OpenRegister | RefCode

  /** family_id: absent on a grant of the previous release, 'legacy-' || key id, or the first refresh hash. */
  datatype Family = Unbound | Legacy(key: nat) | Rooted(first: Token)

  datatype Code = Code(client: string, redirect: string, challenge: string, challengeMethod: string, expires: Instant,
                       via: Via, ref: Option<nat>, resource: string, scope: Scope)

  datatype Grant = Grant(key: nat, client: string, accessExpires: Instant, refreshExpires: Instant, created: Instant,
                         resource: string, scope: Scope, family: Family)

  /** A row of oauth_refresh_history. */
  datatype Retained = Retained(family: Family, key: nat, expires: Instant)

  datatype Key = Key(owned: bool, enabled: bool, revoked: Option<Instant>, created: Instant,
                     lastUsed: Option<Instant>, via: Via, ref: Option<nat>)

  datatype Invite = Invite(id: nat, bind: string, max: int, count: int, expires: Instant, revoked: bool)

  datatype Tables = Tables(codes: map<Token, Code>, grants: map<Token, Grant>, history: map<Token, Retained>,
                           keys: map<nat, Key>, nextKey: nat, invites: map<string, Invite>, nextInvite: nat)

  // ---------------------------------------------------------------- invites

  datatype RedeemError = NotFound | Revoked | LabelBound | Expired | Exhausted

  /** The SELECT of RedeemTx and the checks made on its row. */
  function CheckInvite(invites: map<string, Invite>, code: string, agent: string,
                       now: Instant): Result<nat, RedeemError> {
    CheckTrimmed(invites, Text.TrimSpace(code), Text.TrimSpace(agent), now)
  }

  function CheckTrimmed(invites: map<string, Invite>, c: string, agent: string,
                        now: Instant): Result<nat, RedeemError> {
    if c == "" || c !in invites then Err(NotFound)
    else
      var row := invites[c];
      if row.revoked then Err(Revoked)
      else if row.bind != "" && agent != row.bind then Err(LabelBound)
      else if row.expires <= now then Err(Expired)
      else if row.count >= row.max then Err(Exhausted)
      else Ok(row.id)
  }

  /**
   * The WHERE clause of the guarded UPDATE. It compares the expiry with the clock reading as text;
   * textLater is the answer of that comparison.
   */
  predicate Claimable(invites: map<string, Invite>, code: string, textLater: bool) {
    code in invites && !invites[code].revoked && invites[code].count < invites[code].max && textLater
  }

  function Claimed(invites: map<string, Invite>, code: string): map<string, Invite>
    requires code in invites
  {
    invites[code := invites[code].(count := invites[code].count + 1)]
  }

  function InviteRevoked(invites: map<string, Invite>, id: nat): map<string, Invite> {
    map c | c in invites :: if invites[c].id == id then invites[c].(revoked := true) else invites[c]
  }

  // ---------------------------------------------------------------- code exchange

  /** What the token request presents; proof is the S256 challenge computed from its verifier, empty without one. */
  datatype Ask = Ask(client: string, redirect: string, proof: string)

  /** A request with a missing field is turned away before it touches the code. */
  predicate Complete(ask: Ask) {
    ask.client != "" && ask.redirect != "" && ask.proof != ""
  }

  /** The checks made after the code row is deleted and before anything is minted. */
  predicate CodeMatches(code: Code, ask: Ask, audience: string, now: Instant) {
    now <= code.expires && code.resource == audience && code.client == ask.client && code.redirect == ask.redirect
    && code.challengeMethod == "S256" && code.challenge == ask.proof
  }

  function NewKey(owned: bool, via: Via, ref: Option<nat>, now: Instant): Key {
    Key(owned, true, None, now, None, via, ref)
  }

  /** The second transaction: key, grant and history row appear together. */
  function Minted(t: Tables, code: Code, newToken: Token, now: Instant): Tables {
    var k, expires := t.nextKey, now + REFRESH_LIFE;
    t.(keys := t.keys[k := NewKey(true, code.via, code.ref, now)], nextKey := k + 1,
       grants := t.grants[newToken := Grant(k, code.client, now + ACCESS_LIFE, expires, now, code.resource, code.scope,
                                            Rooted(newToken))],
       history := t.history[newToken := Retained(Rooted(newToken), k, expires)])
  }

  // ---------------------------------------------------------------- refresh

  datatype Outcome = Rotated(oldKey: nat) | Replayed(family: Family) | Refused

  predicate KeyUsable(t: Tables, k: nat) {
    k in t.keys && t.keys[k].enabled && t.keys[k].revoked.None?
  }

  /** The branch the refresh transaction takes. */
  function RefreshOutcome(t: Tables, token: Token, client: string, audience: string, now: Instant): Outcome {
    if token == "" then Refused
    else if token !in t.grants then
      if token in t.history && now < t.history[token].expires then Replayed(t.history[token].family) else Refused
    else
      var g := t.grants[token];
      if g.resource == audience && g.scope.offline && (client == "" || g.client == client)
         && now <= g.refreshExpires && KeyUsable(t, g.key)
      then Rotated(g.key) else Refused
  }

  function FamilyKeys(history: map<Token, Retained>, family: Family): set<nat> {
    set h | h in history && history[h].family == family :: history[h].key
  }

  function Disabled(keys: map<nat, Key>, ids: set<nat>): map<nat, Key> {
    map k | k in keys :: if k in ids then keys[k].(enabled := false) else keys[k]
  }

  function WithoutFamily(grants: map<Token, Grant>, family: Family): map<Token, Grant> {
    map h | h in grants && grants[h].family != family :: grants[h]
  }

  /** What a replay commits: every key of the family disabled, every grant of it gone. */
  function Killed(t: Tables, family: Family): Tables {
    t.(keys := Disabled(t.keys, FamilyKeys(t.history, family)), grants := WithoutFamily(t.grants, family))
  }

  /** What a rotation commits; later is the clock reading made after the expiry check. */
  function Successor(t: Tables, token: Token, newToken: Token, later: Instant): Tables
    requires token in t.grants && t.grants[token].key in t.keys
  {
    var g := t.grants[token];
    var prior, k := t.keys[g.key], t.nextKey;
    t.(keys := t.keys[g.key := prior.(enabled := false)][k := NewKey(true, prior.via, prior.ref, later)],
       nextKey := k + 1,
       grants := (t.grants - {token})[newToken := g.(key := k, accessExpires := later + ACCESS_LIFE, created := later)],
       history := t.history[newToken := Retained(g.family, k, g.refreshExpires)])
  }

  function AfterRefresh(t: Tables, token: Token, outcome: Outcome, newToken: Token, later: Instant): Tables
    requires outcome.Rotated? ==> token in t.grants && t.grants[token].key in t.keys
  {
    match outcome
    case Rotated(_) => Successor(t, token, newToken, later)
    case Replayed(f) => Killed(t, f)
    case Refused => t
  }

  // ---------------------------------------------------------------- administration of gateway keys

  /** stale holds the keys that the text comparisons of RevokeUnused select. */
  datatype KeyOp =
    | Touch(key: nat)
    | Create
    | Enable(key: nat)
    | Disable(key: nat)
    | Revoke(key: nat)
    | RevokeUnused(stale: set<nat>)
    | Delete(key: nat)

  const DAY: nat := 24 * 60 * MINUTE

  /** The WHERE clause of RevokeUnused, on stored texts: created before the cutoff and not used since. */
  predicate Stale(key: Key, cutoff: string, text: int -> string) {
    Text.LexLess(text(key.created), cutoff) && (key.lastUsed.Some? ==> Text.LexLess(text(key.lastUsed.value), cutoff))
  }

  function StaleKeys(keys: map<nat, Key>, cutoff: string, text: int -> string): set<nat> {
    set k | k in keys && Stale(keys[k], cutoff, text)
  }

  /** What stays true of a key row whatever administrators and the verification endpoint do to it. */
  predicate SameIssue(a: Key, b: Key) {
    a.owned == b.owned && a.via == b.via && a.ref == b.ref && a.created == b.created
      && (a.revoked.Some? ==> b.revoked.Some?)
  }

  /** One statement on gateway_keys; next is the AUTOINCREMENT id a new row would get. */
  function KeysAfter(keys: map<nat, Key>, next: nat, op: KeyOp, now: Instant): (r: map<nat, Key>)
    ensures forall k :: k in r && !(op.Create? && k == next) ==> k in keys && SameIssue(keys[k], r[k])
    ensures op.Create? ==> r.Keys == keys.Keys + {next} && KeyFresh(r[next], now)
    ensures op.Revoke? || op.Delete? ==> (op.key in r ==> r[op.key].revoked.Some?)
  {
    match op
    case Touch(k) => if k in keys then keys[k := keys[k].(lastUsed := Some(now))] else keys
    case Create => keys[next := NewKey(false, Operator, None, now)]
    case Enable(k) => if k in keys then keys[k := keys[k].(enabled := true)] else keys
    case Disable(k) => if k in keys then keys[k := keys[k].(enabled := false)] else keys
    case Revoke(k) => if k in keys then keys[k := keys[k].(enabled := false, revoked := Some(now))] else keys
    case RevokeUnused(stale) =>
      map k | k in keys ::
        if keys[k].enabled && keys[k].revoked.None? && k in stale then keys[k].(enabled := false, revoked := Some(now))
        else keys[k]
    case Delete(k) => keys - {k}
  }

  predicate KeyFresh(key: Key, now: Instant) {
    !key.owned && key.ref.None? && key.revoked.None? && key.created == now
  }

  // ---------------------------------------------------------------- startup reconciliation

  datatype Statement = BindGrants | BindCodes | NameFamilies | BackfillHistory | PurgeHistory

  function FamilyOf(g: Grant): Family {
    if g.family.Unbound? then Legacy(g.key) else g.family
  }

  predicate Owned(keys: map<nat, Key>, k: nat) {
    k in keys && keys[k].owned
  }

  /** julianday() of a stored timestamp and of 'now', in whole milliseconds. */
  function JulianMillis(t: Instant): nat {
    (t + 500_000) / 1_000_000
  }

  predicate Purged(row: Retained, now: Instant) {
    JulianMillis(row.expires) < now / 1_000_000
  }

  function GrantsWithResource(grants: map<Token, Grant>, keys: map<nat, Key>, resource: string): map<Token, Grant> {
    map h | h in grants ::
      if grants[h].resource == "" && Owned(keys, grants[h].key) then grants[h].(resource := resource) else grants[h]
  }

  function CodesWithResource(codes: map<Token, Code>, resource: string): map<Token, Code> {
    map h | h in codes :: if codes[h].resource == "" then codes[h].(resource := resource) else codes[h]
  }

  function GrantsNamed(grants: map<Token, Grant>): map<Token, Grant> {
    map h | h in grants :: grants[h].(family := FamilyOf(grants[h]))
  }

  function HistoryFilled(history: map<Token, Retained>, grants: map<Token, Grant>): map<Token, Retained> {
    map h | h in grants.Keys + history.Keys ::
      if h in history then history[h] else Retained(grants[h].family, grants[h].key, grants[h].refreshExpires)
  }

  function HistoryPurged(history: map<Token, Retained>, now: Instant): map<Token, Retained> {
    map h | h in history && !Purged(history[h], now) :: history[h]
  }

  function RunStatement(t: Tables, s: Statement, resource: string, now: Instant): Tables {
    match s
    case BindGrants => t.(grants := GrantsWithResource(t.grants, t.keys, resource))
    case BindCodes => t.(codes := CodesWithResource(t.codes, resource))
    case NameFamilies => t.(grants := GrantsNamed(t.grants))
    case BackfillHistory => t.(history := HistoryFilled(t.history, t.grants))
    case PurgeHistory => t.(history := HistoryPurged(t.history, now))
  }

  function RunStatements(t: Tables, ss: seq<Statement>, resource: string, now: Instant): Tables {
    if ss == [] then t
    else RunStatement(RunStatements(t, ss[..|ss| - 1], resource, now), ss[|ss| - 1], resource, now)
  }

  const RECONCILIATION: seq<Statement> := [BindGrants, BindCodes, NameFamilies, BackfillHistory, PurgeHistory]

  /** The state NewServer leaves before serving its first request. */
  function Reconciled(t: Tables, resource: string, now: Instant): Tables {
    var t1 := RunStatement(t, BindGrants, resource, now);
    var t2 := RunStatement(t1, BindCodes, resource, now);
    var t3 := RunStatement(t2, NameFamilies, resource, now);
    var t4 := RunStatement(t3, BackfillHistory, resource, now);
    RunStatement(t4, PurgeHistory, resource, now)
  }

  /** The purge only removes rows that no longer matter: their expiry lies strictly in the past. */
  lemma PurgedIsExpired(row: Retained, now: Instant)
    requires Purged(row, now)
    ensures row.expires < now
  {
  }
}
