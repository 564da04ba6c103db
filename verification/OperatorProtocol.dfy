/** Operator sign-in as interleaved steps: every statement on the database is one step of a request. */
module OperatorProtocol {
  import opened Prelude
  import opened OperatorLogin

  datatype Place =
    | Saving(loaded: Config, update: Update)
    | Starting(c: Config, browser: string, form: string)
    | Returning(c: Config, browser: string, state: Token)
    | Exchanging(c: Config, browser: string, flow: Flow)
    | Granting(c: Config, browser: string, flow: Flow)
    | Consuming(c: Config, browser: string, proof: Token, form: string)

  /** A Start that stored its state token, a Finish that stored a proof, and a Consume that succeeded. */
  datatype Begun = Begun(browser: string, form: string, revision: string)
  datatype Proven = Proven(state: Token, user: string, browser: string, form: string, revision: string)
  datatype Approval = Approval(proof: Token, browser: string, form: string, revision: string)

  /** The three history variables. */
  datatype Past = Past(begun: map<Token, Begun>, proven: map<Token, Proven>, approvals: seq<Approval>)

  /** used holds every random value drawn, and the empty revision of an unconfigured service. */
  datatype World = World(settings: Config, flows: map<Token, FlowRow>, now: nat, requests: map<nat, Place>,
                         used: set<Token>, past: Past)

  datatype User = User(id: string, login: string)

  /** who is GitHub's answer, None when any part of the exchange fails. */
  datatype Action =
    | BeginSave(req: nat, update: Update)
    | WriteSave(req: nat, issuer: bool, key: bool, revision: string)
    | BeginStart(req: nat, cookie: string, form: string)
    | PutState(req: nat, token: Token)
    | BeginFinish(req: nat, cookie: string, state: Token)
    | TakeState(req: nat)
    | Answer(req: nat, who: Option<User>)
    | PutProof(req: nat, token: Token)
    | BeginConsume(req: nat, cookie: string, proof: Token, form: string)
    | TakeProof(req: nat)
    | Abandon(req: nat)
    | Wait(time: nat)

  /** Request ids are new and random values have never been drawn before. */
  predicate Legal(w: World, a: Action) {
    match a
    case BeginSave(req, _) => req !in w.requests
    case BeginStart(req, _, _) => req !in w.requests
    case BeginFinish(req, _, _) => req !in w.requests
    case BeginConsume(req, _, _, _) => req !in w.requests
    case WriteSave(_, _, _, r) => r !in w.used
    case PutState(_, t) => t !in w.used
    case PutProof(_, t) => t !in w.used
    case _ => true
  }

  function Drop(w: World, req: nat): World {
    w.(requests := w.requests - {req})
  }

  /** enabled(): a request goes on only with a usable configuration. */
  function Enter(w: World, req: nat, p: Place): (v: World)
    ensures v == w.(requests := v.requests)
  {
    if Usable(w.settings) then w.(requests := w.requests[req := p]) else w
  }

  function DoWriteSave(w: World, req: nat, issuer: bool, key: bool, revision: string): World {
    if req in w.requests && w.requests[req].Saving? then
      match Amended(w.requests[req].loaded, w.requests[req].update, issuer, key)
      case None => Drop(w, req)
      case Some(c) => Drop(w.(settings := c.(revision := revision), used := w.used + {revision}), req)
    else w
  }

  /** put for the github phase. */
  function DoPutState(w: World, req: nat, token: Token): World {
    if req in w.requests && w.requests[req].Starting? then
      var p := w.requests[req];
      if CanPut(w.settings, w.flows, p.c.revision, w.now) then
        var row := FlowRow(p.browser, p.c.revision, Github, Flow(p.form, "", "", token), w.now + TTL);
        Drop(w.(flows := Unexpired(w.flows, w.now)[token := row], used := w.used + {token},
                past := w.past.(begun := w.past.begun[token := Begun(p.browser, p.form, p.c.revision)])), req)
      else Drop(w, req)
    else w
  }

  function DoTakeState(w: World, req: nat): World {
    if req in w.requests && w.requests[req].Returning? then
      var p := w.requests[req];
      if Takes(w.settings, w.flows, p.c.revision, p.state, p.browser, Github, w.now) then
        w.(flows := w.flows - {p.state},
           requests := w.requests[req := Exchanging(p.c, p.browser, w.flows[p.state].flow)])
      else Drop(w, req)
    else w
  }

  /** The identity check of Finish and its second look at the settings. */
  function DoAnswer(w: World, req: nat, who: Option<User>): World {
    if req in w.requests && w.requests[req].Exchanging? then
      var p := w.requests[req];
      if who.Some? && who.value.id in p.c.allowed && who.value.login != "" && Usable(w.settings)
         && w.settings.revision == p.c.revision then
        w.(requests := w.requests[req := Granting(p.c, p.browser,
                                                  p.flow.(user := who.value.id, login := who.value.login))])
      else Drop(w, req)
    else w
  }

  /** put for the consent phase. */
  function DoPutProof(w: World, req: nat, token: Token): World {
    if req in w.requests && w.requests[req].Granting? then
      var p := w.requests[req];
      if CanPut(w.settings, w.flows, p.c.revision, w.now) then
        var row := FlowRow(p.browser, p.c.revision, Consent, p.flow, w.now + TTL);
        Drop(w.(flows := Unexpired(w.flows, w.now)[token := row], used := w.used + {token},
                past := w.past.(proven := w.past.proven[token := Proven(p.flow.origin, p.flow.user, p.browser,
                                                                        p.flow.form, p.c.revision)])), req)
      else Drop(w, req)
    else w
  }

  /** Consume: the proof is gone as soon as it is taken; it approves only the same form for an allowed user. */
  predicate Approves(p: Place, flow: Flow) {
    p.Consuming? && flow.user in p.c.allowed && flow.form == p.form
  }

  function DoTakeProof(w: World, req: nat): World {
    if req in w.requests && w.requests[req].Consuming? then
      var p := w.requests[req];
      if Takes(w.settings, w.flows, p.c.revision, p.proof, p.browser, Consent, w.now) then
        var flow := w.flows[p.proof].flow;
        var approvals := w.past.approvals +
          if Approves(p, flow) then [Approval(p.proof, p.browser, p.form, p.c.revision)] else [];
        Drop(w.(flows := w.flows - {p.proof}, past := w.past.(approvals := approvals)), req)
      else Drop(w, req)
    else w
  }

  function Next(w: World, a: Action): World {
    match a
    case BeginSave(req, u) => w.(requests := w.requests[req := Saving(w.settings, u)])
    case WriteSave(req, issuer, key, revision) => DoWriteSave(w, req, issuer, key, revision)
    case BeginStart(req, cookie, form) => Enter(w, req, Starting(w.settings, cookie, form))
    case PutState(req, token) => DoPutState(w, req, token)
    case BeginFinish(req, cookie, state) => Enter(w, req, Returning(w.settings, cookie, state))
    case TakeState(req) => DoTakeState(w, req)
    case Answer(req, who) => DoAnswer(w, req, who)
    case PutProof(req, token) => DoPutProof(w, req, token)
    case BeginConsume(req, cookie, proof, form) => Enter(w, req, Consuming(w.settings, cookie, proof, form))
    case TakeProof(req) => DoTakeProof(w, req)
    case Abandon(req) => Drop(w, req)
    case Wait(time) => w.(now := w.now + time)
  }

  predicate LegalRun(w: World, run: seq<Action>)
    decreases |run|
  {
    run == [] || (Legal(w, run[0]) && LegalRun(Next(w, run[0]), run[1..]))
  }

  function Exec(w: World, run: seq<Action>): World
    decreases |run|
  {
    if run == [] then w else Exec(Next(w, run[0]), run[1..])
  }

  /** A service before its first sign-in; it may have been configured already. */
  ghost predicate Start(w: World) {
    w.flows == map[] && w.requests == map[] && w.past == Past(map[], map[], [])
      && w.settings.revision in w.used && "" in w.used
    && SecretOk(w.settings)
  }

  // ---------------------------------------------------------------- invariant

  /**
   * A configuration some request has loaded: its revision was drawn, and identifies the current one while it is
   * current.
   */
  ghost predicate LoadedOk(c: Config, settings: Config, used: set<Token>) {
    c.revision in used && SecretOk(c) && (c.revision == settings.revision ==> c == settings)
  }

  function ConfigOf(p: Place): Config {
    if p.Saving? then p.loaded else p.c
  }

  /** A flow taken by a Finish belongs to the Start that stored it, with the same browser, form and revision. */
  ghost predicate FlowOk(flow: Flow, browser: string, revision: string, begun: map<Token, Begun>) {
    flow.origin in begun && begun[flow.origin] == Begun(browser, flow.form, revision)
  }

  ghost predicate PlaceOk(p: Place, settings: Config, used: set<Token>, begun: map<Token, Begun>) {
    LoadedOk(ConfigOf(p), settings, used)
    && (p.Exchanging? || p.Granting? ==> FlowOk(p.flow, p.browser, p.c.revision, begun))
    && (p.Granting? ==> p.flow.user in p.c.allowed)
  }

  ghost predicate PlacesOk(requests: map<nat, Place>, settings: Config, used: set<Token>, begun: map<Token, Begun>) {
    forall r :: r in requests ==> PlaceOk(requests[r], settings, used, begun)
  }

  ghost predicate RowOk(t: Token, row: FlowRow, used: set<Token>, past: Past) {
    t in used && row.revision in used && FlowOk(row.flow, row.browser, row.revision, past.begun)
    && match row.phase
       case Github => row.flow.origin == t && t !in past.proven
       case Consent => t in past.proven && past.proven[t] == Proven(row.flow.origin, row.flow.user, row.browser,
                                                                    row.flow.form, row.revision)
  }

  ghost predicate RowsOk(flows: map<Token, FlowRow>, used: set<Token>, past: Past) {
    forall t :: t in flows ==> RowOk(t, flows[t], used, past)
  }

  function StateOf(p: Place): Option<Token> {
    if p.Exchanging? || p.Granting? then Some(p.flow.origin) else None
  }

  /** A state token is in the table, or with one Finish, or spent on one proof. */
  ghost predicate OnceOk(flows: map<Token, FlowRow>, requests: map<nat, Place>, proven: map<Token, Proven>) {
    && (forall r :: r in requests && StateOf(requests[r]).Some? ==>
          !(StateOf(requests[r]).value in flows && flows[StateOf(requests[r]).value].phase == Github))
    && (forall r, q ::
          r in requests && q in requests && StateOf(requests[r]).Some? && StateOf(requests[r]) == StateOf(requests[q]) ==>
            r == q)
    && (forall p :: p in proven ==> !(proven[p].state in flows && flows[proven[p].state].phase == Github))
    && (forall p, r :: p in proven && r in requests ==> StateOf(requests[r]) != Some(proven[p].state))
    && (forall p, q :: p in proven && q in proven && proven[p].state == proven[q].state ==> p == q)
  }

  ghost predicate PastOk(past: Past, used: set<Token>) {
    && (forall t :: t in past.begun ==> t in used)
    && (forall p :: p in past.proven ==> p in used && ProvenOk(past.proven[p], past.begun))
  }

  ghost predicate ProvenOk(p: Proven, begun: map<Token, Begun>) {
    p.state in begun && begun[p.state] == Begun(p.browser, p.form, p.revision)
  }

  /** Every approval spent its own proof, which carries the same browser, form and revision. */
  ghost predicate ApprovalsOk(past: Past, flows: map<Token, FlowRow>) {
    && (forall i :: 0 <= i < |past.approvals| ==> ApprovalOk(past.approvals[i], past.proven, flows))
    && (forall i, j :: 0 <= i < j < |past.approvals| ==> past.approvals[i].proof != past.approvals[j].proof)
  }

  ghost predicate ApprovalOk(a: Approval, proven: map<Token, Proven>, flows: map<Token, FlowRow>) {
    a.proof in proven && a.proof !in flows
    && proven[a.proof].browser == a.browser && proven[a.proof].form == a.form && proven[a.proof].revision == a.revision
  }

  ghost predicate Inv(w: World) {
    && w.settings.revision in w.used && SecretOk(w.settings)
    && |w.flows| <= MAX_FLOWS
    && PlacesOk(w.requests, w.settings, w.used, w.past.begun)
    && RowsOk(w.flows, w.used, w.past)
    && OnceOk(w.flows, w.requests, w.past.proven)
    && PastOk(w.past, w.used)
    && ApprovalsOk(w.past, w.flows)
  }

  lemma StartInv(w: World)
    requires Start(w)
    ensures Inv(w)
  {
  }

  // ---------------------------------------------------------------- steps

  /** A request moves without touching the tables, keeping its state token if it holds one. */
  lemma MoveInv(w: World, req: nat, p: Place)
    requires Inv(w) && PlaceOk(p, w.settings, w.used, w.past.begun)
    requires StateOf(p).None? || (req in w.requests && StateOf(w.requests[req]) == StateOf(p))
    ensures Inv(w.(requests := w.requests[req := p]))
  {
    var after := w.requests[req := p];
    forall r | r in after ensures PlaceOk(after[r], w.settings, w.used, w.past.begun) {
      if r != req { assert PlaceOk(w.requests[r], w.settings, w.used, w.past.begun); }
    }
    MovedOnce(w.flows, w.requests, after, w.past.proven);
  }

  lemma MovedOnce(flows: map<Token, FlowRow>, requests: map<nat, Place>, after: map<nat, Place>,
                  proven: map<Token, Proven>)
    requires OnceOk(flows, requests, proven)
    requires forall r :: r in after && StateOf(after[r]).Some? ==> r in requests && StateOf(after[r]) == StateOf(requests[r])
    ensures OnceOk(flows, after, proven)
  {
  }

  lemma DropInv(w: World, req: nat)
    requires Inv(w)
    ensures Inv(Drop(w, req))
  {
    var after := Drop(w, req).requests;
    assert forall r :: r in after ==> r in w.requests && after[r] == w.requests[r];
  }

  lemma SaveInv(w: World, req: nat, issuer: bool, key: bool, revision: string)
    requires Inv(w) && revision !in w.used
    ensures Inv(DoWriteSave(w, req, issuer, key, revision))
  {
    if req in w.requests && w.requests[req].Saving? {
      var p := w.requests[req];
      assert PlaceOk(p, w.settings, w.used, w.past.begun);
      match Amended(p.loaded, p.update, issuer, key)
      case None => DropInv(w, req);
      case Some(c) =>
        AmendedKeepsSecret(p.loaded, p.update, issuer, key);
        RewrittenInv(w, c.(revision := revision));
        DropInv(w.(settings := c.(revision := revision), used := w.used + {revision}), req);
    }
  }

  lemma RewrittenInv(w: World, c: Config)
    requires Inv(w) && c.revision !in w.used && SecretOk(c)
    ensures Inv(w.(settings := c, used := w.used + {c.revision}))
  {
    forall r | r in w.requests ensures PlaceOk(w.requests[r], c, w.used + {c.revision}, w.past.begun) {
      assert PlaceOk(w.requests[r], w.settings, w.used, w.past.begun);
    }
    forall t | t in w.flows ensures RowOk(t, w.flows[t], w.used + {c.revision}, w.past) {
      assert RowOk(t, w.flows[t], w.used, w.past);
    }
  }

  /** The flows after a put never exceed the cap. */
  lemma PutCount(flows: map<Token, FlowRow>, now: nat, token: Token, row: FlowRow)
    requires |Unexpired(flows, now)| < MAX_FLOWS
    ensures |Unexpired(flows, now)[token := row]| <= MAX_FLOWS
  {
    var u := Unexpired(flows, now);
    assert u[token := row].Keys == u.Keys + {token};
    assert |u[token := row].Keys| <= |u.Keys| + 1;
  }

  /** Rows, requests and history after a new token was stored. */
  lemma StoredRows(w: World, now: nat, token: Token, row: FlowRow, past: Past)
    requires Inv(w) && token !in w.used
    requires forall t :: t in w.past.begun ==> t in past.begun && past.begun[t] == w.past.begun[t]
    requires forall t :: t in w.past.proven ==> t in past.proven && past.proven[t] == w.past.proven[t]
    requires forall t :: t in past.proven ==> t in w.past.proven || t == token
    requires RowOk(token, row, w.used + {token}, past)
    ensures RowsOk(Unexpired(w.flows, now)[token := row], w.used + {token}, past)
    ensures PlacesOk(w.requests, w.settings, w.used + {token}, past.begun)
  {
    var after := Unexpired(w.flows, now)[token := row];
    forall t | t in after ensures RowOk(t, after[t], w.used + {token}, past) {
      if t != token { assert RowOk(t, w.flows[t], w.used, w.past); }
    }
    forall r | r in w.requests ensures PlaceOk(w.requests[r], w.settings, w.used + {token}, past.begun) {
      assert PlaceOk(w.requests[r], w.settings, w.used, w.past.begun);
    }
  }

  lemma PutStateInv(w: World, req: nat, token: Token)
    requires Inv(w) && token !in w.used
    ensures Inv(DoPutState(w, req, token))
  {
    if req in w.requests && w.requests[req].Starting? {
      var p := w.requests[req];
      if CanPut(w.settings, w.flows, p.c.revision, w.now) {
        StateStored(w, token, p.browser, p.form, p.c.revision);
        DropInv(StateWorld(w, token, p.browser, p.form, p.c.revision), req);
      } else {
        DropInv(w, req);
      }
    }
  }

  function StateWorld(w: World, token: Token, browser: string, form: string, revision: string): World {
    w.(flows := Unexpired(w.flows, w.now)[token := FlowRow(browser, revision, Github,
                                                           Flow(form, "", "", token), w.now + TTL)],
       used := w.used + {token}, past := w.past.(begun := w.past.begun[token := Begun(browser, form, revision)]))
  }

  lemma StateStored(w: World, token: Token, browser: string, form: string, revision: string)
    requires Inv(w) && token !in w.used && CanPut(w.settings, w.flows, revision, w.now)
    ensures Inv(StateWorld(w, token, browser, form, revision))
  {
    StateRows(w, token, browser, form, revision);
    StateRest(w, token, browser, form, revision);
  }

  lemma StateRow(w: World, token: Token, browser: string, form: string, revision: string)
    requires Inv(w) && token !in w.used && CanPut(w.settings, w.flows, revision, w.now)
    ensures token !in w.past.begun
    ensures RowOk(token, FlowRow(browser, revision, Github, Flow(form, "", "", token), w.now + TTL), w.used + {token},
                  w.past.(begun := w.past.begun[token := Begun(browser, form, revision)]))
  {
  }

  lemma StateRows(w: World, token: Token, browser: string, form: string, revision: string)
    requires Inv(w) && token !in w.used && CanPut(w.settings, w.flows, revision, w.now)
    ensures var v := StateWorld(w, token, browser, form, revision);
      |v.flows| <= MAX_FLOWS && RowsOk(v.flows, v.used, v.past)
        && PlacesOk(v.requests, v.settings, v.used, v.past.begun)
  {
    var row := FlowRow(browser, revision, Github, Flow(form, "", "", token), w.now + TTL);
    var past := w.past.(begun := w.past.begun[token := Begun(browser, form, revision)]);
    PutCount(w.flows, w.now, token, row);
    StateRow(w, token, browser, form, revision);
    StoredRows(w, w.now, token, row, past);
  }

  lemma StateRest(w: World, token: Token, browser: string, form: string, revision: string)
    requires Inv(w) && token !in w.used
    ensures var v := StateWorld(w, token, browser, form, revision);
      OnceOk(v.flows, v.requests, v.past.proven) && PastOk(v.past, v.used) && ApprovalsOk(v.past, v.flows)
  {
    var flows := StateWorld(w, token, browser, form, revision).flows;
    StateOnce(w, token, flows);
    StatePast(w, token, Begun(browser, form, revision), flows);
  }

  /** Nothing refers to a token that was just drawn. */
  lemma StateOnce(w: World, token: Token, flows': map<Token, FlowRow>)
    requires Inv(w) && token !in w.used
    requires forall t :: t in flows' && t != token ==> t in w.flows && flows'[t] == w.flows[t]
    ensures OnceOk(flows', w.requests, w.past.proven)
  {
    forall r | r in w.requests && StateOf(w.requests[r]).Some? ensures StateOf(w.requests[r]).value != token {
      assert PlaceOk(w.requests[r], w.settings, w.used, w.past.begun);
    }
    forall p | p in w.past.proven ensures w.past.proven[p].state != token {
      assert ProvenOk(w.past.proven[p], w.past.begun);
    }
  }

  lemma StatePast(w: World, token: Token, made: Begun, flows': map<Token, FlowRow>)
    requires Inv(w) && token !in w.used
    requires forall t :: t in flows' ==> t in w.flows || t == token
    ensures var past := w.past.(begun := w.past.begun[token := made]);
      PastOk(past, w.used + {token}) && ApprovalsOk(past, flows')
  {
    var past := w.past.(begun := w.past.begun[token := made]);
    forall i | 0 <= i < |past.approvals| ensures ApprovalOk(past.approvals[i], past.proven, flows') {
      assert ApprovalOk(w.past.approvals[i], w.past.proven, w.flows);
    }
    forall p | p in past.proven ensures p in w.used + {token} && ProvenOk(past.proven[p], past.begun) {
      assert ProvenOk(w.past.proven[p], w.past.begun);
    }
  }

  lemma PutProofInv(w: World, req: nat, token: Token)
    requires Inv(w) && token !in w.used
    ensures Inv(DoPutProof(w, req, token))
  {
    if req in w.requests && w.requests[req].Granting? {
      var p := w.requests[req];
      if CanPut(w.settings, w.flows, p.c.revision, w.now) {
        ProofStored(w, req, token);
      } else {
        DropInv(w, req);
      }
    }
  }

  lemma ProofStored(w: World, req: nat, token: Token)
    requires Inv(w) && token !in w.used && req in w.requests && w.requests[req].Granting?
    requires CanPut(w.settings, w.flows, w.requests[req].c.revision, w.now)
    ensures Inv(DoPutProof(w, req, token))
  {
    ProofRows(w, req, token);
    ProofRest(w, req, token);
  }

  /** The world after a proof was stored. */
  lemma ProofWorld(w: World, req: nat, token: Token)
    requires req in w.requests && w.requests[req].Granting?
             && CanPut(w.settings, w.flows, w.requests[req].c.revision, w.now)
    ensures var v, p := DoPutProof(w, req, token), w.requests[req];
      && v.flows == Unexpired(w.flows, w.now)[token := FlowRow(p.browser, p.c.revision, Consent, p.flow, w.now + TTL)]
      && v.used == w.used + {token} && v.requests == w.requests - {req} && v.settings == w.settings && v.now == w.now
      && v.past == w.past.(proven := w.past.proven[token := Proven(p.flow.origin, p.flow.user, p.browser,
                                                                   p.flow.form, p.c.revision)])
  {
  }

  lemma ProofRows(w: World, req: nat, token: Token)
    requires Inv(w) && token !in w.used && req in w.requests && w.requests[req].Granting?
    requires CanPut(w.settings, w.flows, w.requests[req].c.revision, w.now)
    ensures var v := DoPutProof(w, req, token);
      |v.flows| <= MAX_FLOWS && RowsOk(v.flows, v.used, v.past)
        && PlacesOk(v.requests, v.settings, v.used, v.past.begun)
  {
    var p := w.requests[req];
    assert PlaceOk(p, w.settings, w.used, w.past.begun);
    ProofRow(w, p.browser, p.c.revision, p.flow, token);
    ProofWorld(w, req, token);
    FewerPlaces(w.requests, req, w.settings, w.used + {token}, w.past.begun);
  }

  lemma FewerPlaces(requests: map<nat, Place>, req: nat, settings: Config, used: set<Token>, begun: map<Token, Begun>)
    requires PlacesOk(requests, settings, used, begun)
    ensures PlacesOk(requests - {req}, settings, used, begun)
  {
    forall r | r in requests - {req} ensures PlaceOk((requests - {req})[r], settings, used, begun) {
      assert PlaceOk(requests[r], settings, used, begun);
    }
  }

  lemma ProofRow(w: World, browser: string, revision: string, flow: Flow, token: Token)
    requires Inv(w) && token !in w.used && CanPut(w.settings, w.flows, revision, w.now)
             && FlowOk(flow, browser, revision, w.past.begun)
    ensures var row := FlowRow(browser, revision, Consent, flow, w.now + TTL);
      var past := w.past.(proven := w.past.proven[token := Proven(flow.origin, flow.user, browser,
                                                                  flow.form, revision)]);
      var flows := Unexpired(w.flows, w.now)[token := row];
      |flows| <= MAX_FLOWS && RowsOk(flows, w.used + {token}, past)
        && PlacesOk(w.requests, w.settings, w.used + {token}, past.begun)
  {
    var row := FlowRow(browser, revision, Consent, flow, w.now + TTL);
    var past := w.past.(proven := w.past.proven[token := Proven(flow.origin, flow.user, browser, flow.form, revision)]);
    PutCount(w.flows, w.now, token, row);
    assert RowOk(token, row, w.used + {token}, past);
    assert forall t :: t in w.past.proven ==> t != token;
    StoredRows(w, w.now, token, row, past);
  }

  lemma ProofRest(w: World, req: nat, token: Token)
    requires Inv(w) && token !in w.used && req in w.requests && w.requests[req].Granting?
    requires CanPut(w.settings, w.flows, w.requests[req].c.revision, w.now)
    ensures var v := DoPutProof(w, req, token);
      OnceOk(v.flows, v.requests, v.past.proven) && PastOk(v.past, v.used) && ApprovalsOk(v.past, v.flows)
  {
    var v, p := DoPutProof(w, req, token), w.requests[req];
    var made := Proven(p.flow.origin, p.flow.user, p.browser, p.flow.form, p.c.revision);
    assert PlaceOk(p, w.settings, w.used, w.past.begun);
    ProofOnce(w.flows, w.requests, w.past.proven, v.flows, req, token, made);
    ProofPast(w, token, made, v.flows);
  }

  lemma ProofPast(w: World, token: Token, made: Proven, flows': map<Token, FlowRow>)
    requires Inv(w) && token !in w.used && ProvenOk(made, w.past.begun)
    requires forall t :: t in flows' ==> t in w.flows || t == token
    ensures var past := w.past.(proven := w.past.proven[token := made]);
      PastOk(past, w.used + {token}) && ApprovalsOk(past, flows')
  {
    var past := w.past.(proven := w.past.proven[token := made]);
    forall i | 0 <= i < |past.approvals| ensures ApprovalOk(past.approvals[i], past.proven, flows') {
      assert ApprovalOk(w.past.approvals[i], w.past.proven, w.flows);
    }
    forall p | p in past.proven ensures p in w.used + {token} && ProvenOk(past.proven[p], past.begun) {
      if p != token { assert ProvenOk(w.past.proven[p], w.past.begun); }
    }
  }

  lemma ProofOnce(flows: map<Token, FlowRow>, requests: map<nat, Place>, proven: map<Token, Proven>,
                  flows': map<Token, FlowRow>, req: nat, token: Token, made: Proven)
    requires OnceOk(flows, requests, proven) && req in requests && StateOf(requests[req]) == Some(made.state)
             && token !in proven
    requires forall t :: t in flows' && flows'[t].phase == Github ==> t in flows && flows[t] == flows'[t]
    ensures OnceOk(flows', requests - {req}, proven[token := made])
  {
  }

  lemma TakeStateInv(w: World, req: nat)
    requires Inv(w)
    ensures Inv(DoTakeState(w, req))
  {
    if req in w.requests && w.requests[req].Returning? {
      var p := w.requests[req];
      if Takes(w.settings, w.flows, p.c.revision, p.state, p.browser, Github, w.now) {
        StateTaken(w, req, p);
      } else {
        DropInv(w, req);
      }
    }
  }

  lemma StateTaken(w: World, req: nat, p: Place)
    requires Inv(w) && req in w.requests && w.requests[req] == p && p.Returning?
    requires Takes(w.settings, w.flows, p.c.revision, p.state, p.browser, Github, w.now)
    ensures Inv(DoTakeState(w, req))
  {
    var v, row := DoTakeState(w, req), w.flows[p.state];
    assert PlaceOk(p, w.settings, w.used, w.past.begun) && RowOk(p.state, row, w.used, w.past);
    RemovedRows(w, p.state);
    forall r | r in v.requests ensures PlaceOk(v.requests[r], w.settings, w.used, w.past.begun) {
      if r != req { assert PlaceOk(w.requests[r], w.settings, w.used, w.past.begun); }
    }
    TakenOnce(w.flows, w.requests, w.past.proven, req, p.state, v.requests[req]);
  }

  lemma TakenOnce(flows: map<Token, FlowRow>, requests: map<nat, Place>, proven: map<Token, Proven>, req: nat,
                  state: Token, p: Place)
    requires OnceOk(flows, requests, proven) && state in flows && flows[state].phase == Github
             && StateOf(p) == Some(state)
    ensures OnceOk(flows - {state}, requests[req := p], proven)
  {
  }

  /** Rows and approvals after a row was deleted. */
  lemma RemovedRows(w: World, token: Token)
    requires Inv(w)
    ensures |w.flows - {token}| <= MAX_FLOWS && RowsOk(w.flows - {token}, w.used, w.past)
            && ApprovalsOk(w.past, w.flows - {token})
  {
    var after := w.flows - {token};
    assert after.Keys == w.flows.Keys - {token};
    SubsetCard(after.Keys, w.flows.Keys);
    forall i | 0 <= i < |w.past.approvals| ensures ApprovalOk(w.past.approvals[i], w.past.proven, after) {
      assert ApprovalOk(w.past.approvals[i], w.past.proven, w.flows);
    }
  }

  lemma TakeProofInv(w: World, req: nat)
    requires Inv(w)
    ensures Inv(DoTakeProof(w, req))
  {
    if req in w.requests && w.requests[req].Consuming? {
      var p := w.requests[req];
      if Takes(w.settings, w.flows, p.c.revision, p.proof, p.browser, Consent, w.now) {
        ProofTaken(w, p, p.proof);
        DropInv(SpentWorld(w, p, p.proof), req);
      } else {
        DropInv(w, req);
      }
    }
  }

  function SpentWorld(w: World, p: Place, proof: Token): World
    requires p.Consuming? && proof in w.flows
  {
    w.(flows := w.flows - {proof},
       past := w.past.(approvals := w.past.approvals +
         if Approves(p, w.flows[proof].flow) then [Approval(proof, p.browser, p.form, p.c.revision)] else []))
  }

  lemma ProofTaken(w: World, p: Place, proof: Token)
    requires Inv(w) && p.Consuming? && Takes(w.settings, w.flows, p.c.revision, proof, p.browser, Consent, w.now)
    ensures Inv(SpentWorld(w, p, proof))
  {
    var v := SpentWorld(w, p, proof);
    RemovedRows(w, proof);
    assert RowOk(proof, w.flows[proof], w.used, w.past);
    forall t | t in v.flows ensures RowOk(t, v.flows[t], v.used, v.past) {
      assert RowOk(t, w.flows[t], w.used, w.past);
    }
    forall i | 0 <= i < |v.past.approvals| ensures ApprovalOk(v.past.approvals[i], v.past.proven, v.flows) {
      if i < |w.past.approvals| { assert ApprovalOk(w.past.approvals[i], w.past.proven, w.flows - {proof}); }
    }
    forall i, j | 0 <= i < j < |v.past.approvals| ensures v.past.approvals[i].proof != v.past.approvals[j].proof {
      assert ApprovalOk(w.past.approvals[i], w.past.proven, w.flows);
    }
  }

  lemma AnswerInv(w: World, req: nat, who: Option<User>)
    requires Inv(w)
    ensures Inv(DoAnswer(w, req, who))
  {
    if req in w.requests && w.requests[req].Exchanging? {
      var p := w.requests[req];
      assert PlaceOk(p, w.settings, w.used, w.past.begun);
      if who.Some? && who.value.id in p.c.allowed && who.value.login != "" && Usable(w.settings)
         && w.settings.revision == p.c.revision {
        MoveInv(w, req, Granting(p.c, p.browser, p.flow.(user := who.value.id, login := who.value.login)));
      } else {
        DropInv(w, req);
      }
    }
  }

  lemma StepInv(w: World, a: Action)
    requires Inv(w) && Legal(w, a)
    ensures Inv(Next(w, a))
  {
    match a
    case BeginSave(req, u) => MoveInv(w, req, Saving(w.settings, u));
    case WriteSave(req, issuer, key, revision) => SaveInv(w, req, issuer, key, revision);
    case BeginStart(req, cookie, form) => MoveInv(w, req, Starting(w.settings, cookie, form));
    case PutState(req, token) => PutStateInv(w, req, token);
    case BeginFinish(req, cookie, state) => MoveInv(w, req, Returning(w.settings, cookie, state));
    case TakeState(req) => TakeStateInv(w, req);
    case Answer(req, who) => AnswerInv(w, req, who);
    case PutProof(req, token) => PutProofInv(w, req, token);
    case BeginConsume(req, cookie, proof, form) => MoveInv(w, req, Consuming(w.settings, cookie, proof, form));
    case TakeProof(req) => TakeProofInv(w, req);
    case Abandon(req) => DropInv(w, req);
    case Wait(time) =>
  }

  lemma {:induction false} RunInv(w: World, run: seq<Action>)
    requires Inv(w) && LegalRun(w, run)
    ensures Inv(Exec(w, run))
    decreases |run|
  {
    if run != [] {
      StepInv(w, run[0]);
      RunInv(Next(w, run[0]), run[1..]);
    }
  }

  // ---------------------------------------------------------------- theorems

  ghost predicate Reached(w0: World, run: seq<Action>, w: World) {
    Start(w0) && LegalRun(w0, run) && w == Exec(w0, run)
  }

  lemma ReachedInv(w0: World, run: seq<Action>, w: World)
    requires Reached(w0, run, w)
    ensures Inv(w)
  {
    StartInv(w0);
    RunInv(w0, run);
  }

  /** The state token an approval goes back to. */
  function StateBehind(past: Past, i: nat): Token
    requires i < |past.approvals| && past.approvals[i].proof in past.proven
  {
    past.proven[past.approvals[i].proof].state
  }

  /**
   * Binding: every successful Consume goes back, through the one Finish that made its proof, to a Start of the same
   * browser with the identical form under the same settings; no two approvals share a proof or a Start; and there are
   * never more than 1000 outstanding flows.
   */
  lemma LoginBinding(w0: World, run: seq<Action>, w: World)
    requires Reached(w0, run, w)
    ensures |w.flows| <= 1000
    ensures forall i :: 0 <= i < |w.past.approvals| ==>
              && w.past.approvals[i].proof in w.past.proven && StateBehind(w.past, i) in w.past.begun
              && w.past.begun[StateBehind(w.past, i)] == Begun(w.past.approvals[i].browser, w.past.approvals[i].form,
                                                               w.past.approvals[i].revision)
    ensures forall i, j ::
              0 <= i < j < |w.past.approvals|
              && w.past.approvals[i].proof in w.past.proven && w.past.approvals[j].proof in w.past.proven ==>
              w.past.approvals[i].proof != w.past.approvals[j].proof && StateBehind(w.past, i) != StateBehind(w.past, j)
  {
    ReachedInv(w0, run, w);
    forall i | 0 <= i < |w.past.approvals|
      ensures w.past.approvals[i].proof in w.past.proven && StateBehind(w.past, i) in w.past.begun
      ensures w.past.begun[StateBehind(w.past, i)] == Begun(w.past.approvals[i].browser, w.past.approvals[i].form,
                                                            w.past.approvals[i].revision)
    {
      assert ApprovalOk(w.past.approvals[i], w.past.proven, w.flows);
    }
  }

  /** An approval is given only while the settings it was started under are current, and for a user they allow. */
  lemma ApprovedUnderCurrentSettings(w0: World, run: seq<Action>, w: World, req: nat)
    requires Reached(w0, run, w) && |DoTakeProof(w, req).past.approvals| > |w.past.approvals|
    ensures var v := DoTakeProof(w, req);
      var a := v.past.approvals[|v.past.approvals| - 1];
      && a.revision == w.settings.revision && w.settings.enabled
      && a.proof in w.past.proven && w.past.proven[a.proof].user in w.settings.allowed && a.proof !in v.flows
  {
    ReachedInv(w0, run, w);
    var p := w.requests[req];
    assert PlaceOk(p, w.settings, w.used, w.past.begun) && RowOk(p.proof, w.flows[p.proof], w.used, w.past);
  }

  /** A token that can no longer be taken: it was drawn and is gone, or its row belongs to superseded settings. */
  ghost predicate Useless(w: World, t: Token) {
    t in w.used && (t in w.flows ==> w.flows[t].revision != w.settings.revision)
  }

  lemma StepUseless(w: World, a: Action, t: Token)
    requires Inv(w) && Legal(w, a) && Useless(w, t)
    ensures Useless(Next(w, a), t)
  {
    if t in w.flows { assert RowOk(t, w.flows[t], w.used, w.past); }
    FlowsShrink(w, a);
    if a.WriteSave? { SaveChanges(w, a.req, a.issuer, a.key, a.revision); }
  }

  /** Only a put adds a row, under a new token; only a Save changes the settings. */
  lemma FlowsShrink(w: World, a: Action)
    requires Legal(w, a)
    ensures var v := Next(w, a);
      w.used <= v.used && (!a.WriteSave? ==> v.settings == w.settings)
      && forall t :: t in v.flows && t in w.used ==> t in w.flows && v.flows[t] == w.flows[t]
  {
    match a
    case WriteSave(req, issuer, key, revision) => SaveChanges(w, req, issuer, key, revision);
    case PutState(req, token) => StateAdds(w, req, token);
    case PutProof(req, token) => ProofAdds(w, req, token);
    case TakeState(req) => assert DoTakeState(w, req).flows.Keys <= w.flows.Keys;
    case TakeProof(req) => assert DoTakeProof(w, req).flows.Keys <= w.flows.Keys;
    case Answer(req, who) => assert DoAnswer(w, req, who).flows == w.flows;
    case _ =>
  }

  lemma StateAdds(w: World, req: nat, token: Token)
    ensures var v := DoPutState(w, req, token);
      && w.used <= v.used && v.settings == w.settings
      && forall t :: t in v.flows && t != token ==> t in w.flows && v.flows[t] == w.flows[t]
  {
  }

  lemma ProofAdds(w: World, req: nat, token: Token)
    ensures var v := DoPutProof(w, req, token);
      && w.used <= v.used && v.settings == w.settings
      && forall t :: t in v.flows && t != token ==> t in w.flows && v.flows[t] == w.flows[t]
  {
  }

  lemma SaveChanges(w: World, req: nat, issuer: bool, key: bool, revision: string)
    ensures var v := DoWriteSave(w, req, issuer, key, revision);
      v.flows == w.flows && w.used <= v.used && (v.settings == w.settings || v.settings.revision == revision)
  {
  }

  lemma {:induction false} RunUseless(w: World, run: seq<Action>, t: Token)
    requires Inv(w) && LegalRun(w, run) && Useless(w, t)
    ensures Useless(Exec(w, run), t)
    decreases |run|
  {
    if run != [] {
      StepInv(w, run[0]);
      StepUseless(w, run[0], t);
      RunUseless(Next(w, run[0]), run[1..], t);
    }
  }

  /** A useless token is refused in either phase, to every browser and for every loaded configuration. */
  lemma UselessIsRefused(w: World, t: Token, revision: string, browser: string, phase: Phase)
    requires Useless(w, t)
    ensures !Takes(w.settings, w.flows, revision, t, browser, phase, w.now)
  {
  }

  /** A successful Save makes every token drawn before it useless for good, whatever requests were in flight. */
  lemma SaveInvalidates(w0: World, run: seq<Action>, w: World, req: nat, issuer: bool, key: bool, revision: string,
                        t: Token, later: seq<Action>, loaded: string, browser: string, phase: Phase)
    requires Reached(w0, run, w) && revision !in w.used && t in w.used
    requires DoWriteSave(w, req, issuer, key, revision).settings.revision == revision
    requires LegalRun(DoWriteSave(w, req, issuer, key, revision), later)
    ensures var v := Exec(DoWriteSave(w, req, issuer, key, revision), later);
      !Takes(v.settings, v.flows, loaded, t, browser, phase, v.now)
  {
    ReachedInv(w0, run, w);
    var u := DoWriteSave(w, req, issuer, key, revision);
    SaveInv(w, req, issuer, key, revision);
    assert Useless(u, t) by {
      if t in u.flows { assert RowOk(t, w.flows[t], w.used, w.past); }
    }
    RunUseless(u, later, t);
    UselessIsRefused(Exec(u, later), t, loaded, browser, phase);
  }

  /** A proof is spent by any take, also one whose form or user is then refused. */
  lemma TakeSpendsProof(w0: World, run: seq<Action>, w: World, req: nat, later: seq<Action>, loaded: string,
                        browser: string, phase: Phase)
    requires Reached(w0, run, w) && req in w.requests && w.requests[req].Consuming?
    requires Takes(w.settings, w.flows, w.requests[req].c.revision, w.requests[req].proof,
                   w.requests[req].browser, Consent, w.now)
    requires LegalRun(DoTakeProof(w, req), later)
    ensures var v := Exec(DoTakeProof(w, req), later);
      !Takes(v.settings, v.flows, loaded, w.requests[req].proof, browser, phase, v.now)
  {
    ReachedInv(w0, run, w);
    var u, proof := DoTakeProof(w, req), w.requests[req].proof;
    assert RowOk(proof, w.flows[proof], w.used, w.past);
    TakeProofInv(w, req);
    assert Useless(u, proof);
    RunUseless(u, later, proof);
    UselessIsRefused(Exec(u, later), proof, loaded, browser, phase);
  }

  /** The stored secret always belongs to the stored client id, however saves interleave. */
  lemma SecretBelongsToClient(w0: World, run: seq<Action>, w: World)
    requires Reached(w0, run, w)
    ensures w.settings.secret.Some? ==> w.settings.secret.value.client == w.settings.client
  {
    ReachedInv(w0, run, w);
  }
}
