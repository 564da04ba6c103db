/** The pool of provider endpoints: the rows of provider_keys, selection, and what every update does to a row. */
module EndpointPool {
  import opened Prelude
  import opened QuotaConfig
  import opened Text

  /** Timestamps are stored, and compared by SQLite, as text. */
  type Stamp = string

  datatype Event = Event(source: string, statusClass: string, status: Option<int>, text: string)

  datatype Endpoint = Endpoint(
    provider: string, name: string, baseUrl: string, apiKey: string, enabled: bool, archived: bool,
    cooldown: Option<Stamp>, reason: Option<string>, lastFailed: Option<Stamp>,
    lastUsed: Option<Stamp>, lastSuccess: Option<Stamp>, lastError: Option<Stamp>, lastStatus: Option<int>,
    streak: nat, failures: nat, event: Option<Event>, quota: Sidecar)

  type Rows = map<nat, Endpoint>

  /** The atomic pair handed to the forwarder. */
  datatype Selected = Selected(id: nat, baseUrl: string, apiKey: string)

  datatype PoolError = UnknownProvider | NoEnabledKey | DuplicateName | Invalid

  // ---------------------------------------------------------------- selection

  /** The WHERE clause of SelectEndpoint. */
  predicate Eligible(e: Endpoint, provider: string, now: Stamp) {
    e.provider == provider && e.enabled && !e.archived && (e.cooldown.None? || LexLess(e.cooldown.value, now))
  }

  /** The ORDER BY clause: rows without a failure first, then the oldest failure, then the smaller id. */
  predicate Before(a: Option<Stamp>, i: nat, b: Option<Stamp>, j: nat) {
    if a == b then i < j
    else if a.None? then true
    else b.Some? && LexLess(a.value, b.value)
  }

  lemma BeforeTotal(a: Option<Stamp>, i: nat, b: Option<Stamp>, j: nat)
    ensures i != j ==> (Before(a, i, b, j) <==> !Before(b, j, a, i))
    ensures !Before(a, i, a, i)
  {
    if a.Some? && b.Some? { LexTotal(a.value, b.value); }
  }

  lemma BeforeTransitive(a: Option<Stamp>, i: nat, b: Option<Stamp>, j: nat, c: Option<Stamp>, k: nat)
    requires Before(a, i, b, j) && Before(b, j, c, k)
    ensures Before(a, i, c, k)
  {
    if a.Some? && b.Some? && c.Some? {
      if a != b && b != c {
        LexTransitive(a.value, b.value, c.value);
        LexTotal(a.value, c.value);
      }
    }
  }

  /** id is the row ORDER BY ... LIMIT 1 returns. */
  ghost predicate IsFirst(rows: Rows, provider: string, now: Stamp, id: nat) {
    id in rows && Eligible(rows[id], provider, now)
    && forall j :: j in rows && j != id && Eligible(rows[j], provider, now) ==>
         Before(rows[id].lastFailed, id, rows[j].lastFailed, j)
  }

  lemma FirstIsUnique(rows: Rows, provider: string, now: Stamp, i: nat, j: nat)
    requires IsFirst(rows, provider, now, i) && IsFirst(rows, provider, now, j)
    ensures i == j
  {
    BeforeTotal(rows[i].lastFailed, i, rows[j].lastFailed, j);
  }

  /** Some row is returned as soon as one is eligible. */
  lemma {:induction false} FirstExists(rows: Rows, provider: string, now: Stamp, some: set<nat>) returns (id: nat)
    requires some != {} && forall j :: j in some ==> j in rows && Eligible(rows[j], provider, now)
    ensures id in some && forall j :: j in some && j != id ==> Before(rows[id].lastFailed, id, rows[j].lastFailed, j)
    decreases |some|
  {
    var i :| i in some;
    if some == {i} { return i; }
    var k := FirstExists(rows, provider, now, some - {i});
    BeforeTotal(rows[i].lastFailed, i, rows[k].lastFailed, k);
    if Before(rows[k].lastFailed, k, rows[i].lastFailed, i) { return k; }
    forall j | j in some && j != i && j != k ensures Before(rows[i].lastFailed, i, rows[j].lastFailed, j) {
      BeforeTransitive(rows[i].lastFailed, i, rows[k].lastFailed, k, rows[j].lastFailed, j);
    }
    return i;
  }

  /** What SelectEndpoint answers. */
  ghost function Choice(rows: Rows, provider: string, now: Stamp): (r: Option<nat>)
    ensures r.Some? ==> IsFirst(rows, provider, now, r.value)
    ensures r.None? ==> forall j :: j in rows ==> !Eligible(rows[j], provider, now)
  {
    if some :| some in rows && Eligible(rows[some], provider, now) then
      Some(FirstOf(rows, provider, now, some))
    else None
  }

  ghost function FirstOf(rows: Rows, provider: string, now: Stamp, some: nat): (id: nat)
    requires some in rows && Eligible(rows[some], provider, now)
    ensures IsFirst(rows, provider, now, id)
  {
    assert exists i :: IsFirst(rows, provider, now, i) by {
      var all := set j | j in rows && Eligible(rows[j], provider, now);
      assert some in all;
      var i := FirstExists(rows, provider, now, all);
      assert IsFirst(rows, provider, now, i);
    }
    var i :| IsFirst(rows, provider, now, i);
    i
  }

  lemma ChoiceIs(rows: Rows, provider: string, now: Stamp, id: nat)
    requires IsFirst(rows, provider, now, id)
    ensures Choice(rows, provider, now) == Some(id)
  {
    var c := Choice(rows, provider, now);
    if c.Some? { FirstIsUnique(rows, provider, now, id, c.value); }
  }

  // ---------------------------------------------------------------- updates of one row

  datatype RowOp =
    | Used(now: Stamp)
    | Success(now: Stamp)
    | Failure(now: Stamp, status: int, until: Option<Stamp>, reason: Option<string>)
    | ResetCooldown
    | ResetSelection
    | Demote(now: Stamp)
    | SetEnabled(on: bool)
    | Archive
    | Restore
    | Rebase(url: string)
    | Rekey(key: string)
    | QuotaUpdate(config: Config, readFlow: Flow)
    | QuotaRotate(raw: string, readFlow: Flow)
    | Note(event: Event)

  function ApplyOp(e: Endpoint, op: RowOp): Endpoint {
    match op
    case Used(now) => e.(lastUsed := Some(now))
    case Success(now) => e.(lastSuccess := Some(now), streak := 0, lastFailed := None)
    case Failure(now, status, until, reason) =>
      e.(lastError := Some(now), lastStatus := Some(status), streak := e.streak + 1, failures := e.failures + 1,
         cooldown := until, reason := reason, lastFailed := if until.Some? then Some(now) else e.lastFailed)
    case ResetCooldown => e.(cooldown := None, reason := None, lastFailed := None)
    case ResetSelection => e.(lastFailed := None)
    case Demote(now) => e.(lastFailed := Some(now))
    case SetEnabled(on) => e.(enabled := on)
    case Archive => e.(enabled := false, archived := true)
    case Restore => e.(enabled := false, archived := false)
    case Rebase(url) => e.(baseUrl := url, cooldown := None, reason := None, lastFailed := None)
    case Rekey(key) => e.(apiKey := key, cooldown := None, reason := None, lastFailed := None)
    case QuotaUpdate(config, readFlow) => e.(quota := Updated(e.quota, config, readFlow))
    case QuotaRotate(raw, readFlow) => e.(quota := Rotated(e.quota, raw, readFlow))
    case Note(event) => e.(event := Some(event))
  }

  /** UPDATE ... WHERE id = ?, which does nothing when no row matches. */
  function UpdateRow(rows: Rows, id: nat, op: RowOp): Rows {
    if id in rows then rows[id := ApplyOp(rows[id], op)] else rows
  }

  function NewEndpoint(provider: string, name: string, baseUrl: string, apiKey: string, quota: Sidecar): Endpoint {
    Endpoint(provider, name, baseUrl, apiKey, true, false, None, None, None, None, None, None, None, 0, 0, None, quota)
  }

  // ---------------------------------------------------------------- the repository object

  class KeyRepo {
    var rows: Rows
    var nextId: nat

    /** AUTOINCREMENT: every id in use is below the next one; and every sidecar is valid. */
    ghost predicate Valid()
      reads this
    {
      forall id :: id in rows ==> id < nextId && SidecarOk(rows[id].provider, rows[id].quota)
    }

    constructor ()
      ensures Valid() && rows == map[]
    {
      rows, nextId := map[], 1;
    }

    /** SELECT ... WHERE ... ORDER BY ... LIMIT 1. */
    method Query(provider: string, now: Stamp) returns (r: Option<nat>)
      ensures r == Choice(rows, provider, now)
    {
      var matching := set j | j in rows && Eligible(rows[j], provider, now);
      assert forall j :: j in rows && Eligible(rows[j], provider, now) ==> j in matching;
      if matching == {} { return None; }
      ghost var some := FirstExists(rows, provider, now, matching);
      var id :| id in matching && forall j :: j in matching && j != id ==>
                                    Before(rows[id].lastFailed, id, rows[j].lastFailed, j);
      ChoiceIs(rows, provider, now, id);
      return Some(id);
    }

    /** Selects as the SQL does, then writes last_used_at, which no later selection looks at. */
    method SelectEndpoint(provider: string, now: Stamp) returns (r: Result<Selected, PoolError>)
      modifies this`rows
      ensures old(Valid()) ==> Valid()
      ensures PolicyOf(provider).Err? ==> r == Err(PoolError.UnknownProvider)
      ensures PolicyOf(provider).Ok? ==>
                match Choice(old(rows), provider, now)
                case None => r == Err(NoEnabledKey)
                case Some(id) => id in old(rows) && r == Ok(Selected(id, old(rows)[id].baseUrl, old(rows)[id].apiKey))
      ensures rows == if r.Ok? then UpdateRow(old(rows), r.value.id, Used(now)) else old(rows)
    {
      if provider != GROK && provider != TAVILY && provider != FIRECRAWL { return Err(PoolError.UnknownProvider); }
      var first := Query(provider, now);
      if first.None? { return Err(NoEnabledKey); }
      var id := first.value;
      var e := rows[id];
      rows := rows[id := e.(lastUsed := Some(now))];
      return Ok(Selected(id, e.baseUrl, e.apiKey));
    }

    /** Clears the demotion; a running cooldown stays. */
    method MarkSuccess(id: nat, now: Stamp)
      modifies this`rows
      ensures old(Valid()) ==> Valid()
      ensures rows == UpdateRow(old(rows), id, Success(now))
    {
      if id in rows {
        var e := rows[id];
        rows := rows[id := e.(lastSuccess := Some(now), streak := 0, lastFailed := None)];
      }
    }

    /** Overwrites the cooldown, also with nothing; demotes only when a cooldown is given. */
    method MarkFailureWithCooldown(id: nat, now: Stamp, status: int, until: Option<Stamp>, reason: Option<string>)
      modifies this`rows
      ensures old(Valid()) ==> Valid()
      ensures rows == UpdateRow(old(rows), id, Failure(now, status, until, reason))
    {
      var lastFailed: Option<Stamp> := None;
      if until.Some? { lastFailed := Some(now); }
      if id in rows {
        var e := rows[id];
        // last_failed_at = COALESCE(?, last_failed_at)
        rows := rows[id := e.(lastError := Some(now), lastStatus := Some(status), streak := e.streak + 1,
                              failures := e.failures + 1,
                              cooldown := until, reason := reason,
                              lastFailed := if lastFailed.Some? then lastFailed else e.lastFailed)];
      }
    }

    method ResetCooldown(id: nat) returns (ok: bool)
      requires Valid()
      modifies this`rows
      ensures Valid() && rows == UpdateRow(old(rows), id, RowOp.ResetCooldown) && ok == (id in old(rows))
    {
      if id !in rows { return false; }
      rows := rows[id := rows[id].(cooldown := None, reason := None, lastFailed := None)];
      return true;
    }

    method ResetSelection(id: nat) returns (ok: bool)
      requires Valid()
      modifies this`rows
      ensures Valid() && rows == UpdateRow(old(rows), id, RowOp.ResetSelection) && ok == (id in old(rows))
    {
      if id !in rows { return false; }
      rows := rows[id := rows[id].(lastFailed := None)];
      return true;
    }

    method DemoteToEnd(id: nat, now: Stamp) returns (ok: bool)
      requires Valid()
      modifies this`rows
      ensures Valid() && rows == UpdateRow(old(rows), id, Demote(now)) && ok == (id in old(rows))
    {
      if id !in rows { return false; }
      rows := rows[id := rows[id].(lastFailed := Some(now))];
      return true;
    }

    /** baseUrl is the already normalised endpoint URL. */
    method AddEndpointWithQuota(provider: string, name: string, baseUrl: Option<string>, apiKey: string, input: Input,
                                quotaUrl: Option<string>)
      returns (r: Result<nat, PoolError>)
      requires Valid() && quotaUrl != Some("")
      modifies this
      ensures Valid()
      ensures r.Err? ==> rows == old(rows) && nextId == old(nextId)
      ensures r.Ok? <==> PolicyOf(provider).Ok? && name != "" && apiKey != "" && baseUrl.Some?
                         && Validate(provider, input, quotaUrl, true).Ok?
                         && !exists id :: id in old(rows) && old(rows)[id].provider == provider && old(rows)[id].name == name
      ensures r.Ok? ==> r.value == old(nextId) && nextId == old(nextId) + 1
                        && Validate(provider, input, quotaUrl, true).Ok? && baseUrl.Some?
                        && var quota := Created(Validate(provider, input, quotaUrl, true).value);
                           rows == old(rows)[r.value := NewEndpoint(provider, name, baseUrl.value, apiKey, quota)]
    {
      if provider != GROK && provider != TAVILY && provider != FIRECRAWL { return Err(PoolError.UnknownProvider); }
      if name == "" || apiKey == "" || baseUrl.None? { return Err(Invalid); }
      var q := Validate(provider, input, quotaUrl, true);
      if q.Err? { return Err(Invalid); }
      if exists id :: id in rows && rows[id].provider == provider && rows[id].name == name {
        return Err(DuplicateName);
      }
      ValidIsOk(provider, input, quotaUrl, true);
      CreatedOk(provider, q.value);
      var url, key, identity := None, None, None;
      if q.value.mode == SeparateCredentials {
        url, key := Some(q.value.url), Some(QuotaKey(q.value.raw, q.value.flow));
        identity := IdentityOf(q.value.flow, q.value.raw);
      }
      rows := rows[nextId := NewEndpoint(provider, name, baseUrl.value, apiKey,
                                         Sidecar(q.value.mode, q.value.flow, url, key, identity))];
      r := Ok(nextId);
      nextId := nextId + 1;
    }

    /** Both statements of UpdateEndpointQuota, no other step coming between them. */
    method UpdateEndpointQuota(id: nat, input: Input, quotaUrl: Option<string>) returns (r: Result<(), QuotaError>)
      requires Valid() && quotaUrl != Some("")
      modifies this`rows
      ensures Valid()
      ensures id !in old(rows) ==> r == Err(QuotaError.KeyNotFound)
      ensures id in old(rows) ==>
                match Validate(old(rows)[id].provider, input.(raw := ""), quotaUrl, false)
                case Err(e) => r == Err(e) && rows == old(rows)
                case Ok(c) => r == Ok(()) && rows == UpdateRow(old(rows), id, QuotaUpdate(c, old(rows)[id].quota.flow))
      ensures r.Err? ==> rows == old(rows)
    {
      if id !in rows { return Err(QuotaError.KeyNotFound); }
      var provider, currentFlow := rows[id].provider, rows[id].quota.flow;
      var q := Validate(provider, input.(raw := ""), quotaUrl, false);
      if q.Err? { return Err(q.error); }
      ValidIsOk(provider, input.(raw := ""), quotaUrl, false);
      StoreQuota(id, q.value, currentFlow);
      return Ok(());
    }

    /** The UPDATE of UpdateEndpointQuota for the flow its SELECT has just read. */
    method StoreQuota(id: nat, c: Config, currentFlow: Flow)
      requires Valid() && id in rows && ConfigOk(rows[id].provider, c) && currentFlow == rows[id].quota.flow
      modifies this`rows
      ensures Valid() && rows == UpdateRow(old(rows), id, QuotaUpdate(c, currentFlow))
    {
      var s := rows[id].quota;
      SerialKeeps(rows[id].provider, s, c, "");
      if c.mode == SeparateCredentials {
        var clearCredential := currentFlow != c.flow;
        var clearIdentity := clearCredential || c.flow == Grok2apiV3Admin;
        s := Sidecar(c.mode, c.flow, Some(c.url), if clearCredential then None else s.key,
                     if clearIdentity then None else s.identity);
      } else {
        s := Sidecar(c.mode, c.flow, None, None, None);
      }
      StoreSidecar(id, s);
    }

    /** The columns an UPDATE of the quota configuration sets. */
    method StoreSidecar(id: nat, s: Sidecar)
      requires Valid() && id in rows && SidecarOk(rows[id].provider, s)
      modifies this`rows
      ensures Valid() && rows == old(rows)[id := old(rows)[id].(quota := s)]
    {
      rows := rows[id := rows[id].(quota := s)];
    }

    /** The UPDATE of RotateEndpointQuotaKey for the mode and flow its SELECT has just read. */
    method StoreQuotaKey(id: nat, key: string, flow: Flow)
      requires Valid() && id in rows && rows[id].quota.mode == SeparateCredentials && flow == rows[id].quota.flow
      modifies this`rows
      ensures Valid() && rows == UpdateRow(old(rows), id, QuotaRotate(key, flow))
    {
      var s := rows[id].quota;
      RotateKeeps(rows[id].provider, s, key, flow);
      StoreSidecar(id, s.(key := Some(QuotaKey(key, flow)), identity := IdentityOf(flow, key)));
    }

    /** Both statements of RotateEndpointQuotaKey, no other step coming between them. */
    method RotateEndpointQuotaKey(id: nat, raw: string) returns (r: Result<(), QuotaError>)
      requires Valid()
      modifies this`rows
      ensures Valid()
      ensures r.Ok? <==> TrimSpace(raw) != "" && id in old(rows) && old(rows)[id].quota.mode == SeparateCredentials
      ensures r.Ok? ==> rows == UpdateRow(old(rows), id, QuotaRotate(TrimSpace(raw), old(rows)[id].quota.flow))
      ensures r.Err? ==> rows == old(rows)
    {
      var key := TrimSpace(raw);
      if key == "" { return Err(KeyRequired); }
      if id !in rows { return Err(QuotaError.KeyNotFound); }
      var s := rows[id].quota;
      if s.mode != SeparateCredentials { return Err(InvalidConfig); }
      StoreQuotaKey(id, key, s.flow);
      return Ok(());
    }
  }
}
