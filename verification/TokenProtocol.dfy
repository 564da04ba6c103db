/**
 * The token service as a state machine. One database connection serialises transactions and single
 * statements, so each of them is one atomic step; a request keeps its place between steps in `requests`.
 */
module TokenProtocol {
  import opened Prelude
  import opened TokenTables
  import opened Scopes
  import Text

  /** The authorization request as it is bound to a code. */
  datatype Form = Form(client: string, redirect: string, challenge: string, scope: Scope, agent: string, invite: string)

  /** Where a request in flight stands. */
  datatype Place =
    | Redeeming(form: Form)
    | Selected(form: Form, invite: nat)
    | Approved(form: Form, via: Via, ref: Option<nat>)
    | Taken(token: Token, code: Code, ask: Ask)
    | Checked(token: Token, code: Code, ask: Ask)

  /**
   * What a refresh family was born with; a history variable, never read by the service. over marks a family of the
   * previous release whose grant was gone before the service first started.
   */
  datatype Lineage = Lineage(client: string, via: Via, ref: Option<nat>, scope: Scope, expires: Instant,
                             born: Option<Instant>, code: Option<Token>, over: bool)

  datatype Issue = Issue(family: Family, key: nat)

  /** History variables: families ever started, keys ever minted for them, refresh tokens ever issued. */
  datatype Past = Past(families: map<Family, Lineage>, kin: map<nat, Family>, issued: map<Token, Issue>)

  /**
   * audience is the resource URL of the configured issuer, None when OAuth is off. used holds every random
   * token drawn so far.
   */
  datatype World = World(rows: Tables, now: Instant, audience: Option<string>, requests: map<nat, Place>,
                         used: set<Token>, past: Past)

  datatype Mode = Off | Open | ByInvite

  datatype Action =
    | Authorize(req: nat, asked: Option<Form>, challengeMethod: string, targets: seq<string>, registered: bool,
                operator: bool, mode: Mode)
    | SelectInvite(req: nat)
    | ClaimInvite(req: nat, textLater: bool)
    | StoreCode(req: nat, newToken: Token)
    | TakeCode(req: nat, token: Token, ask: Ask)
    | CheckCode(req: nat)
    | MintGrant(req: nat, newToken: Token)
    | Refresh(token: Token, client: string, newToken: Token, delay: nat)
    | Keys(op: KeyOp)
    | CreateInvite(code: string, bind: string, max: int, expires: Instant)
    | RevokeInvite(id: nat)
    | Abandon(req: nat)
    | Restart(issuer: Option<string>)
    | Wait(time: nat)

  /** The only assumptions on the environment: request ids and random tokens are new, a resource URL is not empty. */
  predicate Legal(w: World, a: Action) {
    match a
    case Authorize(req, _, _, _, _, _, _) => req !in w.requests
    case TakeCode(req, _, _) => req !in w.requests
    case StoreCode(_, h) => h !in w.used && h != ""
    case MintGrant(_, h) => h !in w.used && h != ""
    case Refresh(_, _, h, _) => h !in w.used && h != ""
    case Restart(issuer) => issuer != Some("")
    case _ => true
  }

  function Next(w: World, a: Action): World {
    match a
    case Authorize(req, asked, challengeMethod, targets, registered, operator, mode) =>
      DoAuthorize(w, req, asked, challengeMethod, targets, registered, operator, mode)
    case SelectInvite(req) => DoSelectInvite(w, req)
    case ClaimInvite(req, textLater) => DoClaimInvite(w, req, textLater)
    case StoreCode(req, h) => DoStoreCode(w, req, h)
    case TakeCode(req, token, ask) => DoTakeCode(w, req, token, ask)
    case CheckCode(req) => DoCheckCode(w, req)
    case MintGrant(req, h) => DoMintGrant(w, req, h)
    case Refresh(token, client, h, delay) => DoRefresh(w, token, client, h, delay)
    case Keys(op) => DoKeys(w, op)
    case CreateInvite(code, bind, max, expires) => DoCreateInvite(w, code, Text.TrimSpace(bind), max, expires)
    case RevokeInvite(id) => w.(rows := w.rows.(invites := InviteRevoked(w.rows.invites, id)))
    case Abandon(req) => w.(requests := w.requests - {req})
    case Restart(issuer) => DoRestart(w, issuer)
    case Wait(time) => w.(now := w.now + time)
  }

  function DoKeys(w: World, op: KeyOp): World {
    w.(rows := w.rows.(keys := KeysAfter(w.rows.keys, w.rows.nextKey, op, w.now),
                       nextKey := w.rows.nextKey + if op.Create? then 1 else 0))
  }

  function Drop(w: World, req: nat): World {
    w.(requests := w.requests - {req})
  }

  /** The fields of POST /authorize as they are submitted, and the name under which the client is registered. */
  datatype Submission = Submission(client: string, clientName: string, redirect: string, challenge: string,
                                   rawScope: string, agentLabel: string, invite: string)

  /** The label the key will carry; without one it is the client's name. */
  function LabelOf(s: Submission): string {
    if Text.TrimSpace(s.agentLabel) == "" then s.clientName else s.agentLabel
  }

  /** The request form as the handler reads it; None when its scope is not supported. */
  function FormOf(s: Submission): Option<Form> {
    match Requested(s.rawScope)
    case None => None
    case Some(scope) =>
      Some(Form(s.client, s.redirect, s.challenge, scope, Text.TrimSpace(LabelOf(s)), Text.TrimSpace(s.invite)))
  }

  /** The authorize step of a submission; the state machine itself allows every form. */
  function Submit(req: nat, s: Submission, challengeMethod: string, targets: seq<string>, registered: bool,
                  operator: bool, mode: Mode): Action {
    Authorize(req, FormOf(s), challengeMethod, targets, registered, operator, mode)
  }

  /**
   * A submission that goes on to redeem its invite is judged as RedeemTx judges the submitted texts: RedeemTx trims
   * the code and the label once more, which changes nothing.
   */
  lemma SubmittedRedeems(w: World, req: nat, s: Submission, challengeMethod: string, targets: seq<string>,
                         registered: bool, operator: bool, mode: Mode, invites: map<string, Invite>, now: Instant)
    requires req !in w.requests && req in Next(w, Submit(req, s, challengeMethod, targets, registered,
                                                         operator, mode)).requests
    requires Next(w, Submit(req, s, challengeMethod, targets, registered, operator, mode)).requests[req].Redeeming?
    ensures var f := Next(w, Submit(req, s, challengeMethod, targets, registered, operator, mode)).requests[req].form;
      && f.invite == Text.TrimSpace(s.invite) && f.invite != "" && mode == ByInvite && !operator
      && CheckTrimmed(invites, f.invite, f.agent, now) == CheckInvite(invites, s.invite, LabelOf(s), now)
      && CheckInvite(invites, f.invite, f.agent, now) == CheckTrimmed(invites, f.invite, f.agent, now)
  {
    Text.TrimIsTrimmed(LabelOf(s));
    Text.TrimIsTrimmed(s.invite);
    SubmittedForm(w, req, FormOf(s), challengeMethod, targets, registered, operator, mode);
  }

  lemma SubmittedForm(w: World, req: nat, asked: Option<Form>, challengeMethod: string, targets: seq<string>,
                      registered: bool, operator: bool, mode: Mode)
    requires req !in w.requests
    ensures var v := DoAuthorize(w, req, asked, challengeMethod, targets, registered, operator, mode);
      req in v.requests && v.requests[req].Redeeming? ==>
        asked == Some(v.requests[req].form) && v.requests[req].form.invite != "" && mode == ByInvite && !operator
  {
  }

  /** The decision of POST /authorize; operator tells whether the password or the GitHub proof verified. */
  function DoAuthorize(w: World, req: nat, asked: Option<Form>, challengeMethod: string, targets: seq<string>,
                       registered: bool, operator: bool, mode: Mode): (v: World)
    ensures v == w.(requests := v.requests)
  {
    if asked.None? || w.audience.None? || !(targets == [] || targets == [w.audience.value]) || !registered
       || challengeMethod != "S256" || asked.value.challenge == "" || (asked.value.scope.config && !operator)
    then w
    else if operator then w.(requests := w.requests[req := Approved(asked.value, Operator, None)])
    else if mode == Open then w.(requests := w.requests[req := Approved(asked.value, OpenRegister, None)])
    else if mode == ByInvite && asked.value.invite != "" then w.(requests := w.requests[req := Redeeming(asked.value)])
    else w
  }

  function DoSelectInvite(w: World, req: nat): (v: World)
    ensures v == w.(requests := v.requests) && v.requests.Keys <= w.requests.Keys
  {
    if req in w.requests && w.requests[req].Redeeming? then
      var f := w.requests[req].form;
      match CheckTrimmed(w.rows.invites, f.invite, f.agent, w.now)
      case Ok(id) => w.(requests := w.requests[req := Selected(f, id)])
      case Err(_) => Drop(w, req)
    else w
  }

  function DoClaimInvite(w: World, req: nat, textLater: bool): (v: World)
    ensures v == w.(rows := w.rows.(invites := v.rows.invites), requests := v.requests)
            && v.requests.Keys <= w.requests.Keys
  {
    if req in w.requests && w.requests[req].Selected? then
      var f, c := w.requests[req].form, w.requests[req].form.invite;
      if Claimable(w.rows.invites, c, textLater) then
        w.(rows := w.rows.(invites := Claimed(w.rows.invites, c)),
           requests := w.requests[req := Approved(f, RefCode, Some(w.requests[req].invite))])
      else Drop(w, req)
    else w
  }

  function DoStoreCode(w: World, req: nat, h: Token): (v: World)
    ensures v == w.(rows := w.rows.(codes := v.rows.codes), requests := v.requests, used := v.used) && w.used <= v.used
  {
    if req in w.requests && w.requests[req].Approved? && w.audience.Some? then
      var p := w.requests[req];
      var code := Code(p.form.client, p.form.redirect, p.form.challenge, "S256", w.now + CODE_LIFE,
                       p.via, p.ref, w.audience.value, p.form.scope);
      Drop(w.(rows := w.rows.(codes := w.rows.codes[h := code]), used := w.used + {h}), req)
    else w
  }

  function DoTakeCode(w: World, req: nat, token: Token, ask: Ask): (v: World)
    ensures v == w.(rows := w.rows.(codes := v.rows.codes), requests := v.requests)
  {
    if w.audience.None? || !Complete(ask) || token !in w.rows.codes then w
    else w.(rows := w.rows.(codes := w.rows.codes - {token}),
            requests := w.requests[req := Taken(token, w.rows.codes[token], ask)])
  }

  function DoCheckCode(w: World, req: nat): (v: World)
    ensures v == w.(requests := v.requests) && v.requests.Keys <= w.requests.Keys
  {
    if req in w.requests && w.requests[req].Taken? && w.audience.Some? then
      var p := w.requests[req];
      if CodeMatches(p.code, p.ask, w.audience.value, w.now)
      then w.(requests := w.requests[req := Checked(p.token, p.code, p.ask)])
      else Drop(w, req)
    else w
  }

  function BornFrom(token: Token, code: Code, now: Instant): Lineage {
    Lineage(code.client, code.via, code.ref, code.scope, now + REFRESH_LIFE, Some(now), Some(token), false)
  }

  function DoMintGrant(w: World, req: nat, h: Token): World {
    if req in w.requests && w.requests[req].Checked? then
      var p, f, k := w.requests[req], Rooted(h), w.rows.nextKey;
      Drop(w.(rows := Minted(w.rows, p.code, h, w.now), used := w.used + {h},
              past := Past(w.past.families[f := BornFrom(p.token, p.code, w.now)], w.past.kin[k := f],
                           w.past.issued[h := Issue(f, k)])), req)
    else w
  }

  function OutcomeAt(w: World, token: Token, client: string): Outcome {
    if w.audience.None? then Refused else RefreshOutcome(w.rows, token, client, w.audience.value, w.now)
  }

  function DoRefresh(w: World, token: Token, client: string, h: Token, delay: nat): World {
    var outcome := OutcomeAt(w, token, client);
    var rows := AfterRefresh(w.rows, token, outcome, h, w.now + delay);
    if outcome.Rotated? then
      var f, k := w.rows.grants[token].family, w.rows.nextKey;
      w.(rows := rows, now := w.now + delay, used := w.used + {h},
         past := w.past.(kin := w.past.kin[k := f], issued := w.past.issued[h := Issue(f, k)]))
    else w.(rows := rows, now := w.now + delay)
  }

  function DoCreateInvite(w: World, code: string, bind: string, max: int, expires: Instant): World {
    if max <= 0 || code in w.rows.invites then w
    else w.(rows := w.rows.(invites := w.rows.invites[code := Invite(w.rows.nextInvite, bind, max, 0, expires, false)],
                            nextInvite := w.rows.nextInvite + 1))
  }

  /** A new process: requests in flight are lost, and NewServer reconciles the tables when OAuth is configured. */
  function DoRestart(w: World, issuer: Option<string>): World {
    var u := w.(requests := map[], audience := issuer);
    if issuer.Some? then u.(rows := Reconciled(w.rows, issuer.value, w.now)) else u
  }

  // ---------------------------------------------------------------- runs

  predicate LegalRun(w: World, run: seq<Action>)
    decreases |run|
  {
    run == [] || (Legal(w, run[0]) && LegalRun(Next(w, run[0]), run[1..]))
  }

  function Exec(w: World, run: seq<Action>): World
    decreases |run|
  {
    if run == [] then w else Exec(Next(w, run[0]), run[1..])
  }

  // ---------------------------------------------------------------- acceptance

  predicate Granted(w: World, k: nat) {
    exists h :: h in w.rows.grants && w.rows.grants[h].key == k
  }

  /** A grant of the key names this server. */
  predicate Bound(w: World, k: nat) {
    && w.audience.Some?
    && exists h :: h in w.rows.grants && w.rows.grants[h].key == k && w.rows.grants[h].resource == w.audience.value
  }

  /** CheckOAuthGrant answers AuthDecisionOAuthValid. */
  predicate Unexpired(w: World, k: nat) {
    exists h :: h in w.rows.grants && w.rows.grants[h].key == k && w.now <= w.rows.grants[h].accessExpires
  }

  /** The internal verification endpoint accepts the key, all its reads being made in this state. */
  predicate Accepted(w: World, k: nat) {
    KeyUsable(w.rows, k) && (w.rows.keys[k].owned ==> Bound(w, k) && Unexpired(w, k))
  }

  // ---------------------------------------------------------------- invariant

  ghost predicate LineageOk(line: Lineage, now: Instant) {
    (line.scope.config ==> line.via == Operator)
    && (line.born.Some? ==> line.born.value <= now && line.expires == line.born.value + REFRESH_LIFE)
  }

  ghost predicate PastOk(past: Past, used: set<Token>, nextKey: nat, now: Instant) {
    && Unbound !in past.families
    && (forall k :: k in past.kin ==> k < nextKey && past.kin[k] in past.families)
    && (forall h :: h in past.issued ==>
          h in used && past.issued[h].key in past.kin && past.kin[past.issued[h].key] == past.issued[h].family)
    && (forall f :: f in past.families ==> LineageOk(past.families[f], now))
  }

  /** A family named after a token was started by issuing that token. */
  ghost predicate RootsOk(past: Past) {
    forall h :: Rooted(h) in past.families ==> h in past.issued
  }

  predicate Offline(past: Past, f: Family) {
    f in past.families && past.families[f].scope.offline
  }

  /** A family without offline access never gets a second key. */
  ghost predicate LonersOk(past: Past) {
    forall k, l :: k in past.kin && l in past.kin && past.kin[k] == past.kin[l] && k != l ==> Offline(past, past.kin[k])
  }

  /** A grant row agrees with the family and key its token was issued for. */
  ghost predicate GrantOk(h: Token, g: Grant, past: Past) {
    h in past.issued && past.issued[h] == Issue(FamilyOf(g), g.key) && FamilyOf(g) in past.families
    && var f := past.families[FamilyOf(g)];
       !f.over && g.client == f.client && g.scope == f.scope && g.refreshExpires == f.expires
       && (g.family.Unbound? ==> g.resource == "")
  }

  ghost predicate GrantsOk(grants: map<Token, Grant>, past: Past) {
    && (forall h :: h in grants ==> GrantOk(h, grants[h], past))
    && (forall h, j :: h in grants && j in grants && FamilyOf(grants[h]) == FamilyOf(grants[j]) ==> h == j)
  }

  /** A grant no restart has bound yet is the only token of its family. */
  ghost predicate UnboundOk(grants: map<Token, Grant>, past: Past) {
    forall h, j ::
      h in grants && grants[h].family.Unbound? && j in past.issued && past.issued[j].family == FamilyOf(grants[h]) ==>
        j == h
  }

  ghost predicate RetainedOk(h: Token, row: Retained, past: Past) {
    h in past.issued && past.issued[h] == Issue(row.family, row.key)
    && row.family in past.families && row.expires == past.families[row.family].expires
  }

  /** An issued token may be missing from the history only when its family is over or was never bound. */
  ghost predicate Forgettable(h: Token, grants: map<Token, Grant>, past: Past, now: Instant)
    requires h in past.issued
  {
    (past.issued[h].family in past.families ==> past.families[past.issued[h].family].expires < now)
    || (h in grants && grants[h].family.Unbound?)
  }

  ghost predicate HistoryOk(history: map<Token, Retained>, grants: map<Token, Grant>, past: Past, now: Instant) {
    && (forall h :: h in history ==> RetainedOk(h, history[h], past))
    && (forall h :: h in past.issued && h !in history ==> Forgettable(h, grants, past, now))
  }

  /** A key minted for a family carries the metadata of the family. */
  ghost predicate KeyOk(k: nat, key: Key, past: Past) {
    (!key.owned ==> key.ref.None?)
    && (k in past.kin ==> (
          key.owned && past.kin[k] in past.families
          && key.ref == past.families[past.kin[k]].ref && key.via == past.families[past.kin[k]].via))
  }

  ghost predicate KeysOk(keys: map<nat, Key>, past: Past, nextKey: nat) {
    forall k :: k in keys ==> k < nextKey && KeyOk(k, keys[k], past)
  }

  ghost predicate CodesOk(codes: map<Token, Code>, used: set<Token>) {
    forall h :: h in codes ==> h in used && (codes[h].scope.config ==> codes[h].via == Operator)
  }

  ghost predicate PlaceOk(p: Place, used: set<Token>, audience: Option<string>) {
    match p
    case Redeeming(f) => !f.scope.config
    case Selected(f, _) => !f.scope.config
    case Approved(f, via, _) => f.scope.config ==> via == Operator
    case Taken(h, c, _) => h in used && (c.scope.config ==> c.via == Operator)
    case Checked(h, c, ask) =>
      h in used && (c.scope.config ==> c.via == Operator)
      && audience.Some? && c.resource == audience.value && c.challenge == ask.proof && c.client == ask.client
         && c.redirect == ask.redirect
  }

  ghost predicate PlacesOk(requests: map<nat, Place>, used: set<Token>, audience: Option<string>) {
    forall r :: r in requests ==> PlaceOk(requests[r], used, audience)
  }

  ghost predicate Inv(w: World) {
    && w.audience != Some("")
    && PastOk(w.past, w.used, w.rows.nextKey, w.now)
    && RootsOk(w.past)
    && LonersOk(w.past)
    && GrantsOk(w.rows.grants, w.past)
    && UnboundOk(w.rows.grants, w.past)
    && HistoryOk(w.rows.history, w.rows.grants, w.past, w.now)
    && KeysOk(w.rows.keys, w.past, w.rows.nextKey)
    && CodesOk(w.rows.codes, w.used)
    && PlacesOk(w.requests, w.used, w.audience)
  }
}
