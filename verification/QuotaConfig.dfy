/** The quota sidecar of a provider endpoint: validation, the two administrative writes, and resolution. */
module QuotaConfig {
  import opened Prelude
  import Text

  const GROK := "grok"
  const TAVILY := "tavily"
  const FIRECRAWL := "firecrawl"

  datatype Mode = Disabled | EndpointCredentials | SeparateCredentials
  datatype Flow = Grok2apiAdmin | Grok2apiV3Admin | TavilyUsage | FirecrawlCreditUsage

  datatype QuotaError = UnknownProvider | InvalidConfig | KeyNotFound | KeyRequired | QuotaDisabled | NotConfigured

  /** A stored quota key; entered is the flow it was given for, a history variable. */
  datatype QuotaKey = QuotaKey(raw: string, entered: Flow)

  /** The short digest shown to administrators. */
  datatype Digest = Digest(raw: string)

  datatype Identity = Identity(prefix: string, fingerprint: Digest)

  datatype Sidecar = Sidecar(mode: Mode, flow: Flow, url: Option<string>, key: Option<QuotaKey>,
                             identity: Option<Identity>)

  datatype Input = Input(mode: string, flow: string, url: string, raw: string)

  /** A validated input. */
  datatype Config = Config(mode: Mode, flow: Flow, url: string, raw: string)

  datatype FlowPolicy = FlowPolicy(default: Flow, allowed: seq<Flow>)

  function ModeOf(s: string): Option<Mode> {
    if s == "disabled" then Some(Disabled)
    else if s == "endpoint_credentials" then Some(EndpointCredentials)
    else if s == "separate_credentials" then Some(SeparateCredentials)
    else None
  }

  function FlowOf(s: string): Option<Flow> {
    if s == "grok2api_admin" then Some(Grok2apiAdmin)
    else if s == "grok2api_v3_admin" then Some(Grok2apiV3Admin)
    else if s == "tavily_usage" then Some(TavilyUsage)
    else if s == "firecrawl_credit_usage" then Some(FirecrawlCreditUsage)
    else None
  }

  function PolicyOf(provider: string): Result<FlowPolicy, QuotaError> {
    if provider == GROK then Ok(FlowPolicy(Grok2apiAdmin, [Grok2apiAdmin, Grok2apiV3Admin]))
    else if provider == TAVILY then Ok(FlowPolicy(TavilyUsage, [TavilyUsage]))
    else if provider == FIRECRAWL then Ok(FlowPolicy(FirecrawlCreditUsage, [FirecrawlCreditUsage]))
    else Err(UnknownProvider)
  }

  predicate Allowed(provider: string, flow: Flow) {
    PolicyOf(provider).Ok? && flow in PolicyOf(provider).value.allowed
  }

  /**
   * normalized is what NormalizeBaseURL makes of a non-empty quota URL: a non-empty text, or None when it is refused.
   */
  function Validate(provider: string, input: Input, normalized: Option<string>,
                    needKey: bool): Result<Config, QuotaError> {
    if PolicyOf(provider).Err? then Err(UnknownProvider)
    else
      var url, raw := Text.TrimSpace(input.url), Text.TrimSpace(input.raw);
      match ModeOf(Text.TrimSpace(input.mode))
      case None => Err(InvalidConfig)
      case Some(mode) =>
        match FlowOf(Text.TrimSpace(input.flow))
        case None => Err(InvalidConfig)
        case Some(flow) =>
          if !Allowed(provider, flow) then Err(InvalidConfig)
          else if flow == Grok2apiV3Admin && mode == EndpointCredentials then Err(InvalidConfig)
          else if mode != SeparateCredentials then
            if url != "" || raw != "" then Err(InvalidConfig) else Ok(Config(mode, flow, "", ""))
          else if url == "" || normalized.None? || (needKey && raw == "") then Err(InvalidConfig)
          else Ok(Config(mode, flow, normalized.value, raw))
  }

  /** A configuration a row may be given. */
  predicate ConfigOk(provider: string, c: Config) {
    && Allowed(provider, c.flow)
    && !(c.flow == Grok2apiV3Admin && c.mode == EndpointCredentials)
    && (c.mode == SeparateCredentials <==> c.url != "")
    && (c.mode != SeparateCredentials ==> c.raw == "")
  }

  lemma ValidIsOk(provider: string, input: Input, normalized: Option<string>, needKey: bool)
    requires normalized != Some("")
    ensures var r := Validate(provider, input, normalized, needKey);
      r.Ok? ==> ConfigOk(provider, r.value) && (needKey && r.value.mode == SeparateCredentials ==> r.value.raw != "")
  {
  }

  /** Every accepted configuration can be asked for, so validation shuts out nothing a row may hold. */
  lemma OkIsValid(provider: string, c: Config, mode: string, flow: string)
    requires ConfigOk(provider, c) && ModeOf(mode) == Some(c.mode) && FlowOf(flow) == Some(c.flow)
    requires Text.TrimSpace(c.url) == c.url && Text.TrimSpace(c.raw) == c.raw && Text.TrimSpace(mode) == mode
             && Text.TrimSpace(flow) == flow
    ensures Validate(provider, Input(mode, flow, c.url, c.raw), Some(c.url), c.raw != "") == Ok(c)
  {
  }

  /** The first six bytes; v3 credentials start with a user name and show nothing. */
  function IdentityOf(flow: Flow, raw: string): Option<Identity> {
    if flow == Grok2apiV3Admin then None
    else Some(Identity(if |raw| <= 6 then raw else raw[..6], Digest(raw)))
  }

  // ---------------------------------------------------------------- writes

  /** The columns AddEndpointWithQuota inserts. */
  function Created(c: Config): Sidecar {
    if c.mode == SeparateCredentials
    then Sidecar(c.mode, c.flow, Some(c.url), Some(QuotaKey(c.raw, c.flow)), IdentityOf(c.flow, c.raw))
    else Sidecar(c.mode, c.flow, None, None, None)
  }

  /** The UPDATE of UpdateEndpointQuota; readFlow is the flow its SELECT saw. */
  function Updated(s: Sidecar, c: Config, readFlow: Flow): Sidecar {
    if c.mode != SeparateCredentials then Sidecar(c.mode, c.flow, None, None, None)
    else
      var clearKey := readFlow != c.flow;
      var clearIdentity := clearKey || c.flow == Grok2apiV3Admin;
      Sidecar(c.mode, c.flow, Some(c.url), if clearKey then None else s.key, if clearIdentity then None else s.identity)
  }

  /** The UPDATE of RotateEndpointQuotaKey; readFlow is the flow its SELECT saw, in separate mode. */
  function Rotated(s: Sidecar, raw: string, readFlow: Flow): Sidecar {
    s.(key := Some(QuotaKey(raw, readFlow)), identity := IdentityOf(readFlow, raw))
  }

  /**
   * The sidecar invariant: an allowed flow, nothing separate outside separate mode, a URL inside it, no shown
   * identity for v3, and a stored key that was entered under the current flow and is the one being shown.
   */
  ghost predicate SidecarOk(provider: string, s: Sidecar) {
    && Allowed(provider, s.flow)
    && !(s.flow == Grok2apiV3Admin && s.mode == EndpointCredentials)
    && (s.mode == SeparateCredentials <==> s.url.Some? && s.url.value != "")
    && (s.mode != SeparateCredentials ==> s.url.None? && s.key.None? && s.identity.None?)
    && (s.key.Some? ==> s.key.value.entered == s.flow)
    && s.identity == if s.key.Some? then IdentityOf(s.flow, s.key.value.raw) else None
  }

  lemma CreatedOk(provider: string, c: Config)
    requires ConfigOk(provider, c)
    ensures SidecarOk(provider, Created(c))
  {
  }

  /**
   * UpdateEndpointQuota reads the flow in one statement and writes in another. The write keeps the invariant
   * exactly when it clears the key, there is none, or the row still has the requested flow.
   */
  lemma UpdateKeeps(provider: string, s: Sidecar, c: Config, readFlow: Flow)
    requires SidecarOk(provider, s) && ConfigOk(provider, c)
    ensures SidecarOk(provider, Updated(s, c, readFlow))
            <==> c.mode != SeparateCredentials || readFlow != c.flow || s.key.None? || s.flow == c.flow
  {
  }

  /** The same for RotateEndpointQuotaKey: the row must still be in separate mode under the flow that was read. */
  lemma RotateKeeps(provider: string, s: Sidecar, raw: string, readFlow: Flow)
    requires SidecarOk(provider, s)
    ensures SidecarOk(provider, Rotated(s, raw, readFlow)) <==> s.mode == SeparateCredentials && s.flow == readFlow
  {
  }

  /** So without interference both keep it. */
  lemma SerialKeeps(provider: string, s: Sidecar, c: Config, raw: string)
    requires SidecarOk(provider, s) && ConfigOk(provider, c)
    ensures SidecarOk(provider, Updated(s, c, s.flow))
    ensures s.mode == SeparateCredentials ==> SidecarOk(provider, Rotated(s, raw, s.flow))
  {
    UpdateKeeps(provider, s, c, s.flow);
    RotateKeeps(provider, s, raw, s.flow);
  }

  /**
   * Two administrators do break it: while one rotates a legacy key, the other switches the row to v3 between the
   * two statements; the legacy key ends up under the v3 flow, with its prefix on show.
   */
  lemma InterleavedBreaks()
    ensures var s := Sidecar(SeparateCredentials, Grok2apiAdmin, Some("http://a"), None, None);
      var switched := Updated(s, Config(SeparateCredentials, Grok2apiV3Admin, "http://a", ""), s.flow);
      SidecarOk(GROK, s) && SidecarOk(GROK, switched) && !SidecarOk(GROK, Rotated(switched, "admin-key", s.flow))
      && Rotated(switched, "admin-key", s.flow).identity.Some?
  {
  }

  // ---------------------------------------------------------------- resolution

  datatype Resolved = Resolved(mode: Mode, flow: Flow, url: string, apiKey: string)

  /** ResolveEndpointQuota; url and apiKey are the endpoint's own inference credentials. */
  function Resolve(s: Sidecar, url: string, apiKey: string): Result<Resolved, QuotaError> {
    match s.mode
    case Disabled => Err(QuotaDisabled)
    case EndpointCredentials => Ok(Resolved(s.mode, s.flow, url, apiKey))
    case SeparateCredentials =>
      if s.key.None? || s.url.None? || s.url.value == "" then Err(NotConfigured)
      else Ok(Resolved(s.mode, s.flow, s.url.value, s.key.value.raw))
  }

  /** The two operational skips of refresh-all, decided on the display row. */
  predicate SkipsDisabled(s: Sidecar) {
    s.mode == Disabled
  }

  predicate SkipsUnconfigured(s: Sidecar) {
    s.mode == SeparateCredentials && s.key.None?
  }

  /** On a valid row the skip tests and the errors of resolution agree, and what resolves was entered for its flow. */
  lemma SkipsAgree(provider: string, s: Sidecar, url: string, apiKey: string)
    requires SidecarOk(provider, s)
    ensures SkipsDisabled(s) <==> Resolve(s, url, apiKey) == Err(QuotaDisabled)
    ensures SkipsUnconfigured(s) <==> Resolve(s, url, apiKey) == Err(NotConfigured)
    ensures !SkipsDisabled(s) && !SkipsUnconfigured(s) <==> Resolve(s, url, apiKey).Ok?
    ensures var r := Resolve(s, url, apiKey);
      r.Ok? ==> Allowed(provider, r.value.flow)
                && (r.value.flow == Grok2apiV3Admin ==> s.key == Some(QuotaKey(r.value.apiKey, Grok2apiV3Admin)))
  {
  }

  // ---------------------------------------------------------------- refresh-all

  /** The columns of a listed key that refresh-all looks at. */
  datatype Listed = Listed(archived: bool, enabled: bool, cooling: bool, mode: Mode, configured: bool)

  datatype Verdict = Archived | Off | Cooling | QuotaOff | Unconfigured | Attempt

  function Judge(k: Listed): Verdict {
    if k.archived then Archived
    else if !k.enabled then Off
    else if k.cooling then Cooling
    else if k.mode == Disabled then QuotaOff
    else if k.mode == SeparateCredentials && !k.configured then Unconfigured
    else Attempt
  }

  function Count(keys: seq<Listed>, v: Verdict): nat {
    if keys == [] then 0 else Count(keys[..|keys| - 1], v) + if Judge(keys[|keys| - 1]) == v then 1 else 0
  }

  /** Attempted keys whose refresh was available. */
  function CountAvailable(keys: seq<Listed>, available: seq<bool>): nat
    requires |keys| == |available|
  {
    if keys == [] then 0
    else
      var n := |keys| - 1;
      CountAvailable(keys[..n], available[..n]) + if Judge(keys[n]) == Attempt && available[n] then 1 else 0
  }

  /** Every key gets exactly one verdict. */
  lemma {:induction false} VerdictsPartition(keys: seq<Listed>, available: seq<bool>)
    requires |keys| == |available|
    ensures Count(keys, Archived) + Count(keys, Off) + Count(keys, Cooling) + Count(keys, QuotaOff)
            + Count(keys, Unconfigured) + Count(keys, Attempt) == |keys|
    ensures CountAvailable(keys, available) <= Count(keys, Attempt)
  {
    if keys != [] { VerdictsPartition(keys[..|keys| - 1], available[..|keys| - 1]); }
  }

  datatype Tally = Tally(attempted: nat, succeeded: nat, failed: nat, archived: nat, disabled: nat, cooldown: nat,
                         unconfigured: nat)

  /**
   * RefreshAllKeys. available tells what each refresh brings, stored whether its result could be written; the first
   * failed write ends the walk. The counters partition the keys that were walked.
   */
  method RefreshAll(keys: seq<Listed>, available: seq<bool>, stored: seq<bool>)
    returns (t: Tally, walked: nat, ok: bool)
    requires |available| == |keys| == |stored|
    ensures ok ==> walked == |keys|
    ensures !ok ==> 0 < walked <= |keys| && Judge(keys[walked - 1]) == Attempt && !stored[walked - 1]
    ensures forall i :: 0 <= i < walked - (if ok then 0 else 1) && Judge(keys[i]) == Attempt ==> stored[i]
    ensures t.archived + t.disabled + t.cooldown + t.unconfigured + t.attempted == walked
    ensures t.succeeded + t.failed + (if ok then 0 else 1) == t.attempted
    ensures t.archived == Count(keys[..walked], Archived) && t.cooldown == Count(keys[..walked], Cooling)
    ensures t.disabled == Count(keys[..walked], Off) + Count(keys[..walked], QuotaOff)
    ensures t.unconfigured == Count(keys[..walked], Unconfigured) && t.attempted == Count(keys[..walked], Attempt)
    ensures ok ==> t.succeeded == CountAvailable(keys, available)
  {
    t, ok := Tally(0, 0, 0, 0, 0, 0, 0), true;
    for i := 0 to |keys|
      invariant t.archived == Count(keys[..i], Archived) && t.cooldown == Count(keys[..i], Cooling)
      invariant t.disabled == Count(keys[..i], Off) + Count(keys[..i], QuotaOff)
      invariant t.unconfigured == Count(keys[..i], Unconfigured) && t.attempted == Count(keys[..i], Attempt)
      invariant t.succeeded == CountAvailable(keys[..i], available[..i]) && t.succeeded + t.failed == t.attempted
      invariant forall j :: 0 <= j < i && Judge(keys[j]) == Attempt ==> stored[j]
    {
      assert keys[..i + 1][..i] == keys[..i] && available[..i + 1][..i] == available[..i];
      walked := i + 1;
      var key := keys[i];
      if key.archived { t := t.(archived := t.archived + 1); continue; }
      if !key.enabled { t := t.(disabled := t.disabled + 1); continue; }
      if key.cooling { t := t.(cooldown := t.cooldown + 1); continue; }
      if key.mode == Disabled { t := t.(disabled := t.disabled + 1); continue; }
      if key.mode == SeparateCredentials && !key.configured { t := t.(unconfigured := t.unconfigured + 1); continue; }
      t := t.(attempted := t.attempted + 1);
      if !stored[i] {
        VerdictsPartition(keys[..walked], available[..walked]);
        return t, walked, false;
      }
      if !available[i] { t := t.(failed := t.failed + 1); } else { t := t.(succeeded := t.succeeded + 1); }
    }
    walked := |keys|;
    assert keys[..walked] == keys && available[..walked] == available;
    VerdictsPartition(keys, available);
  }
}
