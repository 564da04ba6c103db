/**
 * Signing in to the operator role with GitHub: a two-phase, one-use token protocol bound to the browser, to the
 * revision of the settings and to the form being approved. Tokens are represented by their hashes.
 */
module OperatorLogin {
  import opened Prelude
  import Cooldown
  import Text

  type Token = string

  const TTL: nat := 600
  const MAX_FLOWS := 1000
  const TOKEN_LENGTH := 43

  /** client is the OAuth app the secret was entered for, a history variable. */
  datatype Secret = Secret(raw: string, client: string)

  datatype Config = Config(enabled: bool, client: string, secret: Option<Secret>, allowed: set<string>,
                           revision: string)

  datatype Update = Update(enabled: bool, client: string, secret: string, allowed: seq<string>)

  datatype Phase = Github | Consent

  /**
   * user and login are empty before GitHub has answered; origin is the state token of the Start, a history variable.
   */
  datatype Flow = Flow(form: string, user: string, login: string, origin: Token)

  datatype FlowRow = FlowRow(browser: string, revision: string, phase: Phase, flow: Flow, expires: nat)

  // ---------------------------------------------------------------- settings

  /** The test Save makes on an allowed user id. */
  predicate ValidId(v: string) {
    var n := Cooldown.ParseInt(v);
    n.Some? && n.value > 0 && Cooldown.Decimal(n.value) == v
  }

  /** It admits exactly the canonical decimal notations of positive int64 numbers. */
  lemma ValidIdsAreCanonical(v: string)
    ensures ValidId(v) <==> Cooldown.AllDigits(v) && v[0] != '0' && Cooldown.Digits(v) <= Cooldown.MAX_INT64
  {
    if ValidId(v) {
      var n := Cooldown.ParseInt(v).value;
      Cooldown.DecimalDigits(n);
    } else if Cooldown.AllDigits(v) && v[0] != '0' {
      DigitsPositive(v);
      DigitsDecimal(v);
    }
  }

  lemma {:induction false} DigitsPositive(v: string)
    requires Cooldown.AllDigits(v) && v[0] != '0'
    ensures Cooldown.Digits(v) > 0
    decreases |v|
  {
    if |v| > 1 { DigitsPositive(v[..|v| - 1]); }
  }

  lemma {:induction false} DigitsDecimal(v: string)
    requires Cooldown.AllDigits(v) && v[0] != '0'
    ensures Cooldown.Decimal(Cooldown.Digits(v)) == v
    decreases |v|
  {
    var n := |v| - 1;
    var last := v[n] as int - '0' as int;
    if n == 0 {
      assert v[..0] == "";
      assert Cooldown.Digits(v) == last;
    } else {
      DigitsPositive(v[..n]);
      DigitsDecimal(v[..n]);
      var d := Cooldown.Digits(v[..n]);
      assert (10 * d + last) / 10 == d && (10 * d + last) % 10 == last;
      assert v == v[..n] + [v[n]];
    }
  }

  function IdOf(raw: string): Option<string> {
    var v := Text.TrimSpace(raw);
    if ValidId(v) then Some(v) else None
  }

  /** The ids that pass the check, or None when one of them does not. */
  function IdsOf(raw: seq<string>, check: string -> Option<string>): Option<set<string>> {
    if raw == [] then Some({})
    else
      var n := |raw| - 1;
      var rest, id := IdsOf(raw[..n], check), check(raw[n]);
      if rest.Some? && id.Some? then Some(rest.value + {id.value}) else None
  }

  lemma {:induction false} InvalidSpoils(raw: seq<string>, check: string -> Option<string>, i: nat)
    requires i <= |raw| && IdsOf(raw[..i], check).None?
    ensures IdsOf(raw, check).None?
    decreases |raw|
  {
    if i == |raw| {
      assert raw[..i] == raw;
    } else {
      assert raw[..|raw| - 1][..i] == raw[..i];
      InvalidSpoils(raw[..|raw| - 1], check, i);
    }
  }

  /** The loop of Save over the submitted ids; sorting is left to the set. */
  method ParseIds(raw: seq<string>, check: string -> Option<string>) returns (r: Option<set<string>>)
    ensures r == IdsOf(raw, check)
  {
    var seen: set<string> := {};
    for i := 0 to |raw|
      invariant IdsOf(raw[..i], check) == Some(seen)
    {
      assert raw[..i + 1][..i] == raw[..i];
      var v := check(raw[i]);
      if v.None? {
        InvalidSpoils(raw, check, i + 1);
        return None;
      }
      assert v.value in seen ==> seen + {v.value} == seen;
      if v.value !in seen { seen := seen + {v.value}; }
    }
    assert raw[..|raw|] == raw;
    return Some(seen);
  }

  /** The ids are accepted when all of them pass, and then none is lost or added. */
  lemma {:induction false} IdsAreComplete(raw: seq<string>, check: string -> Option<string>)
    ensures IdsOf(raw, check).Some? <==> forall i :: 0 <= i < |raw| ==> check(raw[i]).Some?
    ensures IdsOf(raw, check).Some? ==>
              forall v :: v in IdsOf(raw, check).value <==> exists i :: 0 <= i < |raw| && check(raw[i]) == Some(v)
    decreases |raw|
  {
    if raw != [] {
      IdsAreComplete(raw[..|raw| - 1], check);
    }
  }

  /**
   * What Save makes of the settings it loaded, apart from the revision; issuer and key tell that these are configured.
   */
  function Amended(c: Config, u: Update, issuer: bool, key: bool): Option<Config> {
    var client := Text.TrimSpace(u.client);
    if |client| > 256 || (exists x :: x in client && x in "\r\n\t ") then None
    else if |u.secret| > 4096 || |u.allowed| > 100 then None
    else
      match IdsOf(u.allowed, IdOf)
      case None => None
      case Some(ids) =>
        if u.secret != "" && (Text.TrimSpace(u.secret) != u.secret || !key) then None
        else
          var secret := if u.secret != "" then Some(Secret(u.secret, client))
                        else if client != c.client then None
                        else c.secret;
          if u.enabled && (!issuer || !key || client == "" || secret.None? || ids == {}) then None
          else Some(Config(u.enabled, client, secret, ids, c.revision))
  }

  ghost predicate SecretOk(c: Config) {
    c.secret.Some? ==> c.secret.value.client == c.client
  }

  /** A secret is never kept for a different OAuth app, and an enabled configuration is complete. */
  lemma AmendedKeepsSecret(c: Config, u: Update, issuer: bool, key: bool)
    requires SecretOk(c)
    ensures var r := Amended(c, u, issuer, key);
      r.Some? ==>
        SecretOk(r.value) && (r.value.enabled ==> r.value.client != "" && r.value.secret.Some? && r.value.allowed != {})
  {
  }

  // ---------------------------------------------------------------- the two statements on operator_login_flows

  function Unexpired(flows: map<Token, FlowRow>, now: nat): map<Token, FlowRow> {
    map t | t in flows && now < flows[t].expires :: flows[t]
  }

  /** The settings row has this revision and is enabled. */
  predicate Active(c: Config, revision: string) {
    c.enabled && c.revision == revision
  }

  predicate CanPut(settings: Config, flows: map<Token, FlowRow>, revision: string, now: nat) {
    Active(settings, revision) && |Unexpired(flows, now)| < MAX_FLOWS
  }

  /** The row a take deletes and returns, if any. */
  predicate Takes(settings: Config, flows: map<Token, FlowRow>, revision: string, token: Token, browser: string,
                  phase: Phase, now: nat)
  {
    |token| == TOKEN_LENGTH && |browser| == TOKEN_LENGTH && token in flows
    && flows[token].browser == browser && flows[token].revision == revision && flows[token].phase == phase
       && now < flows[token].expires
    && Active(settings, revision)
  }

  predicate Usable(c: Config) {
    c.enabled && c.client != "" && c.secret.Some? && c.allowed != {}
  }

  /** The service's own statements on the two tables. */
  class Tables {
    var settings: Config
    var flows: map<Token, FlowRow>

    /** put: one transaction, which leaves everything as it was when it fails. */
    method Put(c: Config, browser: string, phase: Phase, flow: Flow, token: Token, now: nat) returns (ok: bool)
      modifies this`flows
      ensures ok == CanPut(settings, old(flows), c.revision, now)
      ensures flows == if ok then Unexpired(old(flows), now)[token := FlowRow(browser, c.revision, phase, flow, now + TTL)]
                       else old(flows)
    {
      if !(settings.enabled && settings.revision == c.revision) { return false; }
      var saved := flows;
      flows := map t | t in flows && !(flows[t].expires <= now) :: flows[t];
      assert flows == Unexpired(saved, now);
      if |flows| >= MAX_FLOWS {
        flows := saved;
        return false;
      }
      flows := flows[token := FlowRow(browser, c.revision, phase, flow, now + TTL)];
      return true;
    }

    /** take: a single DELETE ... RETURNING. */
    method Take(c: Config, token: Token, browser: string, phase: Phase, now: nat) returns (r: Option<Flow>)
      modifies this`flows
      ensures r.Some? == Takes(settings, old(flows), c.revision, token, browser, phase, now)
      ensures r.Some? ==> token in old(flows) && r.value == old(flows)[token].flow
      ensures flows == if r.Some? then old(flows) - {token} else old(flows)
    {
      if |token| != TOKEN_LENGTH || |browser| != TOKEN_LENGTH { return None; }
      if token !in flows { return None; }
      var row := flows[token];
      if row.browser != browser || row.revision != c.revision || row.phase != phase || row.expires <= now {
        return None;
      }
      if !(settings.enabled && settings.revision == c.revision) { return None; }
      flows := flows - {token};
      return Some(row.flow);
    }

    /** The loop-free part of Save: load, amend, write the whole settings row under a new revision. */
    method Save(u: Update, issuer: bool, key: bool, revision: string) returns (ok: bool)
      modifies this`settings
      ensures ok == Amended(old(settings), u, issuer, key).Some?
      ensures settings == if ok then Amended(old(settings), u, issuer, key).value.(revision := revision)
                          else old(settings)
    {
      var c := settings;
      var client := Text.TrimSpace(u.client);
      if |client| > 256 || (exists x :: x in client && x in "\r\n\t ") { return false; }
      if |u.secret| > 4096 || |u.allowed| > 100 { return false; }
      var ids := ParseIds(u.allowed, IdOf);
      if ids.None? { return false; }
      if client != c.client && u.secret == "" { c := c.(secret := None); }
      if u.secret != "" {
        if Text.TrimSpace(u.secret) != u.secret || !key { return false; }
        c := c.(secret := Some(Secret(u.secret, client)));
      }
      if u.enabled && (!issuer || !key || client == "" || c.secret.None? || ids.value == {}) { return false; }
      settings := Config(u.enabled, client, c.secret, ids.value, revision);
      return true;
    }
  }
}
